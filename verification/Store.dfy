/**
 The durable key/value store: rows with an absolute expiry, lazy clean-up and
 transactions. A key stands for the pair (kind, digest of the key), the digest
 being injective; the clock is a parameter.
 */
module Store {
  import opened Wrappers

  datatype Row<+V> = Row(value: V, expires: real)
  type Table<K, +V> = map<K, Row<V>>

  /** A row is visible strictly before its expiry. */
  function Get<K, V>(t: Table<K, V>, now: real, k: K): Option<V> {
    if k in t && t[k].expires > now then Some(t[k].value) else None
  }

  function Put<K, V>(t: Table<K, V>, now: real, k: K, v: V, ttl: real): Table<K, V> {
    t[k := Row(v, now + ttl)]
  }

  function Delete<K, V>(t: Table<K, V>, k: K): Table<K, V> {
    map x | x in t && x != k :: t[x]
  }

  /** The clean-up deletes rows whose expiry has passed, keeping those that expire just now. */
  function Vacuum<K, V>(t: Table<K, V>, now: real): Table<K, V> {
    map x | x in t && t[x].expires >= now :: t[x]
  }

  /** Clean-up is invisible to every later read. */
  lemma VacuumInvisible<K, V>(t: Table<K, V>, now: real, later: real, k: K)
    requires now <= later
    ensures Get(Vacuum(t, now), later, k) == Get(t, later, k)
  {
    assert k in Vacuum(t, now) <==> k in t && t[k].expires >= now;
  }

  /** A value is read back from the moment it is put until its time to live has passed,
      and other keys are unaffected. */
  lemma PutThenGet<K, V>(t: Table<K, V>, now: real, k: K, v: V, ttl: real, later: real, other: K)
    requires now <= later
    ensures Get(Put(t, now, k, v, ttl), later, k) == if later < now + ttl then Some(v) else None
    ensures other != k ==> Get(Put(t, now, k, v, ttl), later, other) == Get(t, later, other)
  {
    assert Put(t, now, k, v, ttl)[k] == Row(v, now + ttl);
  }

  class KeyValueStore<K(==), V> {
    var db: Table<K, V>
    var lastCleanup: real
    var saved: Option<Table<K, V>>

    constructor ()
      ensures db == map[] && lastCleanup == 0.0 && saved.None?
    {
      db, lastCleanup, saved := map[], 0.0, None;
    }

    /** Inserts or replaces. The occasional clean-up shows in the raw rows only. */
    method PutRow(now: real, k: K, v: V, ttl: real)
      modifies this`db, this`lastCleanup
      ensures db == Put(if now - old(lastCleanup) > 60.0 then Vacuum(old(db), now) else old(db), now, k, v, ttl)
      ensures forall x, later :: later >= now && x != k ==> Get(db, later, x) == Get(old(db), later, x)
      ensures forall later :: later >= now ==> Get(db, later, k) == if later < now + ttl then Some(v) else None
    {
      ghost var before := db;
      if now - lastCleanup > 60.0 {
        db := map x | x in db && db[x].expires >= now :: db[x];
        lastCleanup := now;
      }
      forall x, later | later >= now
        ensures Get(db, later, x) == Get(before, later, x)
      {
        VacuumInvisible(before, now, later, x);
      }
      db := db[k := Row(v, now + ttl)];
    }

    method GetRow(now: real, k: K) returns (v: Option<V>)
      ensures v == Get(db, now, k)
    {
      v := None;
      if k in db {
        var row := db[k];
        if row.expires > now { v := Some(row.value); }
      }
    }

    method ExpiresAt(k: K) returns (e: Option<real>)
      ensures e == if k in db then Some(db[k].expires) else None
    {
      e := if k in db then Some(db[k].expires) else None;
    }

    method DeleteRow(k: K)
      modifies this`db
      ensures db == Delete(old(db), k)
      ensures forall now :: Get(db, now, k).None?
    {
      db := map x | x in db && x != k :: db[x];
    }

    /** Reads and deletes in one transaction: whatever two callers do, one value is popped once. */
    method Pop(now: real, k: K) returns (v: Option<V>)
      requires saved.None?
      modifies this
      ensures v == Get(old(db), now, k) && db == Delete(old(db), k)
      ensures forall later :: Get(db, later, k).None?
      ensures saved.None?
    {
      Begin();
      v := GetRow(now, k);
      DeleteRow(k);
      Commit();
    }

    method Begin()
      requires saved.None?
      modifies this`saved
      ensures saved == Some(db)
    {
      saved := Some(db);
    }

    method Commit()
      requires saved.Some?
      modifies this`saved
      ensures saved.None?
    {
      saved := None;
    }

    /** Rolling back restores every row as `Begin` saw it. */
    method Rollback()
      requires saved.Some?
      modifies this`saved, this`db
      ensures db == old(saved.value) && saved.None?
    {
      db, saved := saved.value, None;
    }
  }
}
