// The cache's block tables meet the condition of the forward-pass theorem.
module SlotSharing {
  import opened Prelude
  import opened Arithmetic
  import opened KvConservation
  import opened PrefixSoundness
  import opened Attention
  import KvStores
  import C = CachedExecution

  /** Tokens of a sequence so far: part of its prompt, or its prompt and more, within what its table backs. */
  ghost predicate BackedTokens(h: History, s: SequenceId, tokens: seq<TokenId>) {
    && s in h.m.tables && s in h.prompts
    && |tokens| <= h.m.tables[s].numTokens
    && (tokens <= h.prompts[s] || h.prompts[s] <= tokens)
  }

  /** A block listed twice is published under the prefix that each listing stands for. */
  lemma ListedTwiceIsPublished(h: History, s: SequenceId, i: nat)
    requires Tracked(h) && OwnOrigins(h)
    requires s in h.m.tables && i < |h.m.tables[s].blocks|
    requires h.m.tables[s].blocks[i] < |h.m.pool.blocks| && h.m.pool.blocks[h.m.tables[s].blocks[i]].refCount >= 2
    ensures HasBlock(h.prompts[s], i, h.m.pool.blockSize)
    ensures h.m.tables[s].blocks[i] in h.origin
            && h.origin[h.m.tables[s].blocks[i]] == Through(h.prompts[s], i, h.m.pool.blockSize)
  {
    hide BlockDigest, Through, AllRefs, HasBlock, EntriesKnown;
    var b := h.m.tables[s].blocks[i];
    assert TableHashed(h.m.pool, h.m.pool.blockSize, h.prompts[s], h.m.tables[s]);
    assert BlockHashed(h.m.pool, h.m.pool.blockSize, h.prompts[s], b, i);
    assert OwnOrigin(h.origin, h.m.pool.blockSize, h.prompts[s], b, i);
  }

  /** Equal prefixes of whole blocks end at the same block. */
  lemma SamePrefixSameIndex(x: seq<TokenId>, i: nat, y: seq<TokenId>, j: nat, size: nat)
    requires size > 0 && HasBlock(x, i, size) && HasBlock(y, j, size) && Through(x, i, size) == Through(y, j, size)
    ensures i == j && x[..i * size + size] == y[..i * size + size]
  {
    RowsApart(i, j, size);
  }

  /** The block and slot of a position, where it has one. */
  lemma LocatedBlock(table: seq<BlockId>, p: nat, size: nat)
    requires size > 0 && Locate(table, p, size).Some?
    ensures p / size < |table| && Locate(table, p, size).value == (table[p / size], p % size)
    ensures p == p / size * size + p % size && p % size < size
  {
    DivisionEquation(p, size);
  }

  /** Tokens that agree with a prompt where both reach have its prefixes. */
  lemma AgreesWithPrompt(tokens: seq<TokenId>, prompt: seq<TokenId>, n: nat)
    requires tokens <= prompt || prompt <= tokens
    requires n <= |tokens| && n <= |prompt|
    ensures tokens[..n] == prompt[..n]
  {
  }

  lemma SlotOfTwo(h: History, s: SequenceId, tokens: seq<TokenId>, p: nat,
                  x: SequenceId, others: seq<TokenId>, q: nat)
    requires Tracked(h) && OwnOrigins(h)
    requires BackedTokens(h, s, tokens) && BackedTokens(h, x, others) && (s == x ==> tokens == others)
    requires p < |tokens| && q < |others|
    requires h.m.pool.blockSize > 0
    requires Locate(h.m.tables[s].blocks, p, h.m.pool.blockSize).Some?
    requires Locate(h.m.tables[s].blocks, p, h.m.pool.blockSize) == Locate(h.m.tables[x].blocks, q, h.m.pool.blockSize)
    ensures p == q && tokens[..p + 1] == others[..p + 1]
  {
    hide Tracked, OwnOrigins, HasBlock, Locate;
    var size, a, b := h.m.pool.blockSize, h.m.tables[s].blocks, h.m.tables[x].blocks;
    LocatedBlock(a, p, size);
    LocatedBlock(b, q, size);
    var i, j := p / size, q / size;
    if s != x || i != j {
      SharedPrefix(h, s, i, x, j);
      SamePrefixHere(tokens, h.prompts[s], others, h.prompts[x], p, i * size + size);
    }
  }

  /** A block in two places stands for one and the same prefix. */
  lemma SharedPrefix(h: History, s: SequenceId, i: nat, x: SequenceId, j: nat)
    requires Tracked(h) && OwnOrigins(h)
    requires s in h.m.tables && x in h.m.tables && s in h.prompts && x in h.prompts && (s != x || i != j)
    requires i < |h.m.tables[s].blocks| && j < |h.m.tables[x].blocks| && h.m.tables[s].blocks[i] == h.m.tables[x].blocks[j]
    ensures var n := i * h.m.pool.blockSize + h.m.pool.blockSize;
            && i == j && n <= |h.prompts[s]| && n <= |h.prompts[x]| && h.prompts[s][..n] == h.prompts[x][..n]
  {
    hide Tracked, OwnOrigins;
    TrackedIsConsistent(h);
    SharedBlockCountedTwice(h.m, s, i, x, j);
    SharedBlockCountedTwice(h.m, x, j, s, i);
    ListedTwiceIsPublished(h, s, i);
    ListedTwiceIsPublished(h, x, j);
    SamePrefixSameIndex(h.prompts[s], i, h.prompts[x], j, h.m.pool.blockSize);
  }

  lemma TrackedIsConsistent(h: History)
    requires Tracked(h)
    ensures Consistent(h.m) && h.m.pool.blockSize > 0
  {
  }

  lemma SamePrefixHere(t: seq<TokenId>, x: seq<TokenId>, u: seq<TokenId>, y: seq<TokenId>, p: nat, n: nat)
    requires (t <= x || x <= t) && (u <= y || y <= u) && p < |t| && p < |u|
    requires p < n <= |x| && n <= |y| && x[..n] == y[..n]
    ensures t[..p + 1] == u[..p + 1]
  {
    AgreesWithPrompt(t, x, p + 1);
    AgreesWithPrompt(u, y, p + 1);
    assert x[..p + 1] == x[..n][..p + 1] && y[..p + 1] == y[..n][..p + 1];
  }

  /** Every position that a table backs has a slot. */
  lemma BackedIsLocated(h: History, s: SequenceId, tokens: seq<TokenId>, p: nat)
    requires Tracked(h) && BackedTokens(h, s, tokens) && p < |tokens| && h.m.pool.blockSize > 0
    ensures Locate(h.m.tables[s].blocks, p, h.m.pool.blockSize).Some?
  {
    hide Tracked, CeilDiv;
    TableBacks(h, s);
    InsideBlocks(p, h.m.tables[s].numTokens, h.m.pool.blockSize);
  }

  lemma TableBacks(h: History, s: SequenceId)
    requires Tracked(h) && s in h.m.tables && h.m.pool.blockSize > 0
    ensures |h.m.tables[s].blocks| == CeilDiv(h.m.tables[s].numTokens, h.m.pool.blockSize)
  {
  }

  lemma InsideBlocks(p: nat, n: nat, size: nat)
    requires p < n && size > 0
    ensures p / size < CeilDiv(n, size)
  {
    DivisionEquation(p, size);
    QuotientMonotone(p + size, n + size - 1, size);
    QuotientRemainder(p + size, size, p / size + 1, p % size);
  }

  lemma TrackedTablesAreApart(h: History, d: KvStores.Dims, s: SequenceId, tokens: seq<TokenId>,
                              x: SequenceId, others: seq<TokenId>)
    requires Tracked(h) && OwnOrigins(h)
    requires d.blockSize == h.m.pool.blockSize > 0
    requires BackedTokens(h, s, tokens) && BackedTokens(h, x, others) && (s == x ==> tokens == others)
    ensures C.Apart(d, C.Lane(tokens, h.m.tables[s].blocks), C.Lane(others, h.m.tables[x].blocks))
  {
    hide Tracked, OwnOrigins, Locate;
    var a, b := h.m.tables[s].blocks, h.m.tables[x].blocks;
    forall p: nat, q: nat | p < |tokens| && q < |others| && Locate(a, p, d.blockSize) == Locate(b, q, d.blockSize)
      ensures p == q && tokens[..p + 1] == others[..p + 1]
    {
      BackedIsLocated(h, s, tokens, p);
      SlotOfTwo(h, s, tokens, p, x, others, q);
    }
  }

  /**
   * After every run of the cache in which the index can confuse no two histories, any two
   * block tables share a slot only at the same position of the same history: the sequences
   * of the cache are lanes that the forward-pass theorem admits.
   */
  lemma TablesAreApart(numBlocks: nat, blockSize: nat, prefixCaching: bool, ops: seq<CacheOp>, d: KvStores.Dims,
                       s: SequenceId, tokens: seq<TokenId>, x: SequenceId, others: seq<TokenId>)
    requires blockSize > 0 && d.blockSize == blockSize && Unambiguous(Prompts(ops), blockSize)
    requires var h := StateAfter(numBlocks, blockSize, prefixCaching, ops);
             BackedTokens(h, s, tokens) && BackedTokens(h, x, others) && (s == x ==> tokens == others)
    ensures var h := StateAfter(numBlocks, blockSize, prefixCaching, ops);
            C.Apart(d, C.Lane(tokens, h.m.tables[s].blocks), C.Lane(others, h.m.tables[x].blocks))
  {
    hide Tracked, OwnOrigins, Unambiguous, DrawnFrom, StateAfter, C.Apart;
    StateKeepsOwn(numBlocks, blockSize, prefixCaching, ops, Prompts(ops));
    TrackedTablesAreApart(StateAfter(numBlocks, blockSize, prefixCaching, ops), d, s, tokens, x, others);
  }
}
