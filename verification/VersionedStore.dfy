/** The optimistic store every protocol of the gateway runs over.

    A row carries the version the API server gave its last write. A write names the
    version its author read (or none, for a create) and is refused when the row has
    moved on. Versions are handed out in increasing order and never reused, so a row
    that is deleted and created again comes back under a new version. */
module VersionedStore {

  datatype Option<+T> = None | Some(value: T)

  datatype Versioned<+V> = Versioned(version: nat, value: V)

  /** What a write with precondition `expected` makes of `cell`; None is a conflict.
      `next` is the version the server would hand out. */
  function Swap<V>(cell: Option<Versioned<V>>, expected: Option<nat>, value: V, next: nat)
    : (r: Option<Versioned<V>>)
    ensures r.Some? <==> VersionOf(cell) == expected
    ensures r.Some? ==> r.value == Versioned(next, value)
  {
    if VersionOf(cell) == expected then Some(Versioned(next, value)) else None
  }

  function VersionOf<V>(cell: Option<Versioned<V>>): (r: Option<nat>)
  {
    if cell.Some? then Some(cell.value.version) else None
  }

  /** A store of many rows, with the next version to hand out. */
  datatype Rows<K, V> = Rows(rows: map<K, Versioned<V>>, next: nat) {
    function Row(k: K): Option<Versioned<V>> {
      if k in rows then Some(rows[k]) else None
    }

    ghost predicate Valid() {
      forall k :: k in rows ==> rows[k].version < next
    }
  }

  datatype Op<K, V> =
    | Put(key: K, expected: Option<nat>, value: V)
    | Delete(key: K, version: nat)

  /** One request of any client; a refused request changes nothing. */
  function Serve<K(==), V>(s: Rows<K, V>, op: Op<K, V>): (t: Rows<K, V>) {
    match op
    case Put(k, expected, v) =>
      var r := Swap(s.Row(k), expected, v, s.next);
      if r.Some? then Rows(s.rows[k := r.value], s.next + 1) else s
    case Delete(k, version) =>
      if VersionOf(s.Row(k)) == Some(version) then Rows(s.rows - {k}, s.next + 1) else s
  }

  function ServeAll<K(==), V>(s: Rows<K, V>, ops: seq<Op<K, V>>): Rows<K, V>
    decreases |ops|
  {
    if ops == [] then s else ServeAll(Serve(s, ops[0]), ops[1..])
  }

  predicate Granted<K(==), V>(s: Rows<K, V>, op: Op<K, V>) {
    VersionOf(s.Row(op.key)) == if op.Put? then op.expected else Some(op.version)
  }

  /** Nobody's write on `k` was accepted while `ops` ran. */
  predicate Untouched<K(==), V>(s: Rows<K, V>, ops: seq<Op<K, V>>, k: K)
    decreases |ops|
  {
    ops != [] ==>
      && !(ops[0].key == k && Granted(s, ops[0]))
      && Untouched(Serve(s, ops[0]), ops[1..], k)
  }

  /** No lost update and no ABA: after any requests of any clients, the version a client
      read is still current exactly when no write to that row was accepted since, and the
      value is then the one it read. Deleting and creating the row again does not help. */
  lemma {:induction false} VersionStillCurrent<K, V>(s: Rows<K, V>, ops: seq<Op<K, V>>, k: K)
    requires s.Valid() && k in s.rows
    ensures ServeAll(s, ops).Valid()
    ensures VersionOf(ServeAll(s, ops).Row(k)) == Some(s.rows[k].version) <==> Untouched(s, ops, k)
    ensures Untouched(s, ops, k) ==> ServeAll(s, ops).Row(k) == s.Row(k)
    decreases |ops|
  {
    if ops != [] {
      var t := Serve(s, ops[0]);
      if !(ops[0].key == k && Granted(s, ops[0])) {
        VersionStillCurrent(t, ops[1..], k);
      } else {
        VersionNeverReturns(t, ops[1..], k, s.rows[k].version);
      }
    }
  }

  lemma {:induction false} VersionNeverReturns<K, V>(s: Rows<K, V>, ops: seq<Op<K, V>>, k: K, version: nat)
    requires s.Valid() && version < s.next && VersionOf(s.Row(k)) != Some(version)
    ensures ServeAll(s, ops).Valid()
    ensures VersionOf(ServeAll(s, ops).Row(k)) != Some(version)
    decreases |ops|
  {
    if ops != [] {
      VersionNeverReturns(Serve(s, ops[0]), ops[1..], k, version);
    }
  }

  /** The record methods of the API client: each is one request, refused on any other version. */
  class RecordStore<K(==), V> {
    var store: Rows<K, V>

    constructor ()
      ensures store.Valid() && store.rows == map[]
    {
      store := Rows(map[], 0);
    }

    method Record(k: K) returns (record: Option<Versioned<V>>)
      ensures record == store.Row(k)
    {
      record := store.Row(k);
    }

    /** Creates the record, or fails because there is one. */
    method CreateRecord(k: K, value: V) returns (created: Option<Versioned<V>>)
      requires store.Valid()
      modifies this
      ensures store.Valid() && store == Serve(old(store), Put(k, None, value))
      ensures created == if k in old(store).rows then None else store.Row(k)
    {
      if k in store.rows { return None; }
      var row := Versioned(store.next, value);
      store := Rows(store.rows[k := row], store.next + 1);
      created := Some(row);
    }

    /** Replaces the record as it was read, under a new version. */
    method UpdateRecord(k: K, version: nat, value: V) returns (updated: Option<Versioned<V>>)
      requires store.Valid()
      modifies this
      ensures store.Valid() && store == Serve(old(store), Put(k, Some(version), value))
      ensures updated == if VersionOf(old(store).Row(k)) == Some(version) then store.Row(k) else None
    {
      if k !in store.rows || store.rows[k].version != version { return None; }
      var row := Versioned(store.next, value);
      store := Rows(store.rows[k := row], store.next + 1);
      updated := Some(row);
    }

    method DeleteRecord(k: K, version: nat) returns (deleted: bool)
      requires store.Valid()
      modifies this
      ensures store.Valid() && store == Serve(old(store), Delete(k, version))
      ensures deleted <==> VersionOf(old(store).Row(k)) == Some(version)
    {
      if k !in store.rows || store.rows[k].version != version { return false; }
      store := Rows(store.rows - {k}, store.next + 1);
      deleted := true;
    }
  }
}
