// The semantic_cache table and its four statements.
module CacheStore {
  import opened Wrappers
  import opened AutoId
  import opened Machine

  class SemanticCacheRepository {
    var rows: map<Digest, Entry>

    constructor ()
      ensures rows == map[]
    {
      rows := map[];
    }

    method FindExact(hash: Digest) returns (found: Option<Entry>)
      ensures found == if hash in rows then Some(rows[hash]) else None
    {
      found := if hash in rows then Some(rows[hash]) else None;
    }

    // The index is approximate: `candidate` is the row it comes up with, if any.  Its true
    // similarity must be strictly above the threshold.
    method FindNearest(vector: seq<real>, threshold: real, cosine: (seq<real>, seq<real>) -> real, candidate: Option<Digest>)
      returns (found: Option<Digest>)
      requires candidate.Some? ==> candidate.value in rows
      ensures found == if candidate.Some? && cosine(rows[candidate.value].embedding, vector) > threshold then candidate else None
    {
      if candidate.None? {
        return None;
      }
      var similarity := cosine(rows[candidate.value].embedding, vector);
      if similarity <= threshold {
        return None;
      }
      found := candidate;
    }

    // INSERT ... ON CONFLICT (text_hash) DO NOTHING.
    method Upsert(hash: Digest, entry: Entry)
      modifies this
      ensures rows == if hash in old(rows) then old(rows) else old(rows)[hash := entry]
    {
      if hash !in rows {
        rows := rows[hash := entry];
      }
    }

    method IncrementHitCount(hash: Digest)
      modifies this
      ensures rows == if hash in old(rows) then old(rows)[hash := old(rows)[hash].(hits := old(rows)[hash].hits + 1)] else old(rows)
    {
      if hash in rows {
        rows := rows[hash := rows[hash].(hits := rows[hash].hits + 1)];
      }
    }
  }
}
