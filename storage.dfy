/**
 * The entity store the token library writes through: a map from
 * (entityType, entityId) to a field record, with a field-level merging
 * upsert and a lookup.
 */
module Storage {
  import opened Wrappers
  import opened Types

  /** A storage key: the entity kind and its identifier. */
  datatype Key = Key(kind: EntityType, id: string)

  /** A stored record, or an upsert payload: the fields it sets. */
  type Record = map<Field, Value>

  /** Every stored entity, by key. */
  type Store = map<Key, Record>

  function Lookup(s: Store, k: Key): (r: Option<Record>)
    ensures r.Some? <==> k in s
    ensures r.Some? ==> r.value == s[k]
  {
    if k in s then Some(s[k]) else None
  }

  function OrEmpty(r: Option<Record>): Record {
    r.GetOr(map[])
  }

  /**
   * The upsert merge: every field of the payload is written, every other
   * field of the existing record is kept.
   */
  function Merge(existing: Option<Record>, fields: Record): (r: Record)
    ensures r.Keys == OrEmpty(existing).Keys + fields.Keys
    ensures forall f :: f in fields ==> r[f] == fields[f]
    ensures forall f :: f in OrEmpty(existing) && f !in fields ==> r[f] == OrEmpty(existing)[f]
  {
    OrEmpty(existing) + fields
  }

  /** The store after an upsert of `fields` at `k`: only the entry at `k` changes. */
  function Write(s: Store, k: Key, fields: Record): (s': Store)
    ensures s'.Keys == s.Keys + {k}
    ensures s'[k] == Merge(Lookup(s, k), fields)
    ensures forall k' :: k' != k ==> Lookup(s', k') == Lookup(s, k')
  {
    s[k := Merge(Lookup(s, k), fields)]
  }

  /** Merging the same payload a second time adds nothing. */
  lemma MergeIdempotent(existing: Option<Record>, fields: Record)
    ensures Merge(Some(Merge(existing, fields)), fields) == Merge(existing, fields)
  {
    var once := Merge(existing, fields);
    var twice := Merge(Some(once), fields);
    assert forall f :: f in twice ==> twice[f] == once[f];
  }

  /** Upserting the same payload at the same key twice leaves the store of one upsert. */
  lemma WriteIdempotent(s: Store, k: Key, fields: Record)
    ensures Write(Write(s, k, fields), k, fields) == Write(s, k, fields)
  {
    var once := Write(s, k, fields);
    var twice := Write(once, k, fields);
    MergeIdempotent(Lookup(s, k), fields);
    assert twice[k] == once[k];
    assert forall k' :: k' in twice ==> twice[k'] == once[k'] by {
      forall k' | k' in twice ensures twice[k'] == once[k'] {
        if k' != k {
          assert Lookup(twice, k') == Lookup(once, k');
        }
      }
    }
  }

  /** An upsert never touches an entry of another entity kind. */
  lemma WriteKeepsOtherKinds(s: Store, k: Key, fields: Record)
    ensures forall k': Key :: k'.kind != k.kind ==> Lookup(Write(s, k, fields), k') == Lookup(s, k')
  {
  }

  /** The entity store the library calls `database`. */
  class Database {
    /** Every stored entity. */
    var store: Store
    /** The keys of the upserts issued so far, oldest first. */
    ghost var writes: seq<Key>
    /** The keys of the lookups issued so far, oldest first. */
    ghost var lookups: seq<Key>

    constructor ()
      ensures store == map[] && writes == [] && lookups == []
    {
      store := map[];
      writes := [];
      lookups := [];
    }

    /** `database.get`: the record stored at the key, if any. */
    method Get(kind: EntityType, id: string) returns (r: Option<Record>)
      modifies this
      ensures r == Lookup(store, Key(kind, id))
      ensures store == old(store) && writes == old(writes)
      ensures lookups == old(lookups) + [Key(kind, id)]
    {
      lookups := lookups + [Key(kind, id)];
      r := if Key(kind, id) in store then Some(store[Key(kind, id)]) else None;
    }

    /** `database.upsert`: merge `fields` into the record at the key and return the result. */
    method Upsert(kind: EntityType, id: string, fields: Record) returns (r: Record)
      modifies this
      ensures store == Write(old(store), Key(kind, id), fields)
      ensures r == store[Key(kind, id)]
      ensures writes == old(writes) + [Key(kind, id)]
      ensures lookups == old(lookups)
    {
      var k := Key(kind, id);
      var existing := if k in store then store[k] else map[];
      r := existing + fields;
      store := store[k := r];
      writes := writes + [k];
    }
  }
}
