/** The hash function of the metadata: consecutive core lines fall into consecutive buckets. */
module HashBucket {
  import opened Division

  datatype Key = Key(core: nat, line: nat)

  function Bucket(k: Key, entries: nat): (b: nat)
    requires entries > 0
    ensures b < entries
  {
    Rem(k.line + Times(k.core, entries / 32), entries)
  }

  lemma IsHash(k: Key, entries: nat)
    requires entries > 0
    ensures Bucket(k, entries) == (k.line + k.core * (entries / 32)) % entries
  {
    IsProduct(k.core, entries / 32);
    IsQuotRem(k.line + Times(k.core, entries / 32), entries);
  }
}
