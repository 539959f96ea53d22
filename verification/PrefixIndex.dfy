// Published blocks, found by the digest of the history they end.
module PrefixIndex {
  import opened Prelude
  import opened Hashing

  datatype CacheEntry = CacheEntry(block: BlockId, tokens: seq<TokenId>)

  type Entries = map<Hash, CacheEntry>

  /** A hit needs equal tokens, not only an equal digest. */
  function Find(entries: Entries, hash: Hash, tokens: seq<TokenId>): Option<BlockId> {
    if hash in entries && entries[hash].tokens == tokens then Some(entries[hash].block) else None
  }

  /** The first block published under a digest keeps it. */
  function Published(entries: Entries, hash: Hash, block: BlockId, tokens: seq<TokenId>): Entries {
    if hash in entries then entries else entries[hash := CacheEntry(block, tokens)]
  }

  /** Only an entry that still names `block` is dropped. */
  function Dropped(entries: Entries, hash: Hash, block: BlockId): Entries {
    if hash in entries && entries[hash].block == block then entries - {hash} else entries
  }

  function DroppedRecycled(entries: Entries, evicted: Option<Hash>, block: BlockId): Entries {
    match evicted
    case None => entries
    case Some(h) => Dropped(entries, h, block)
  }

  class PrefixCache {
    var entries: Entries

    constructor ()
      ensures entries == map[]
    {
      entries := map[];
    }

    method Lookup(hash: Hash, tokens: seq<TokenId>) returns (r: Option<BlockId>)
      ensures r == Find(entries, hash, tokens)
    {
      if hash in entries {
        if entries[hash].tokens == tokens {
          return Some(entries[hash].block);
        }
        return None;
      }
      r := None;
    }

    method Insert(hash: Hash, block: BlockId, tokens: seq<TokenId>)
      modifies this
      ensures entries == Published(old(entries), hash, block, tokens)
    {
      if hash !in entries {
        entries := entries[hash := CacheEntry(block, tokens)];
      }
    }

    method Remove(hash: Hash, block: BlockId)
      modifies this
      ensures entries == Dropped(old(entries), hash, block)
    {
      if hash in entries {
        if entries[hash].block == block {
          entries := entries - {hash};
        }
      }
    }

    method Clear()
      modifies this
      ensures entries == map[]
    {
      entries := map[];
    }
  }
}
