/**
 The rolling block-hash chain of a prompt and the contiguous-prefix match.
 The hash is any injective function of (parent, tokens) that never yields the root.
 */
module Blocks {
  import opened Basics

  type Hash = (int, seq<int>) -> int

  const ROOT := 1469598103934665603

  ghost predicate Injective(h: Hash) {
    && (forall p, t :: h(p, t) != ROOT)
    && (forall p, t, p', t' :: h(p, t) == h(p', t') ==> p == p' && t == t')
  }

  /** Length of the longest common prefix. */
  function Common<T(==)>(a: seq<T>, b: seq<T>): (n: nat)
    ensures n <= |a| && n <= |b|
    ensures a[..n] == b[..n]
    ensures n < |a| && n < |b| ==> a[n] != b[n]
  {
    if a == [] || b == [] || a[0] != b[0] then 0
    else
      var n := Common(a[1..], b[1..]);
      assert a[..n + 1] == [a[0]] + a[1..][..n];
      assert b[..n + 1] == [b[0]] + b[1..][..n];
      n + 1
  }

  lemma {:induction false} CommonIsLongest<T>(a: seq<T>, b: seq<T>, k: nat)
    requires k <= |a| && k <= |b|
    ensures a[..k] == b[..k] <==> k <= Common(a, b)
  {
    var n := Common(a, b);
    if k <= n {
      assert a[..k] == a[..n][..k];
      assert b[..k] == b[..n][..k];
    } else {
      assert a[..k][n] == a[n];
      assert b[..k][n] == b[n];
    }
  }

  // ---------------------------------------------------------------- hash chains

  lemma {:induction false} BlockFits(len: nat, size: nat, n: nat)
    requires size > 0
    ensures n <= len / size <==> n * size <= len
  {
    assert len == size * (len / size) + len % size;
    if n <= len / size {
      assert n * size <= (len / size) * size;
    } else {
      assert n * size >= (len / size + 1) * size;
    }
  }

  lemma {:induction false} FewerBlocks(x: nat, y: nat, size: nat)
    requires size > 0 && x <= y
    ensures x / size <= y / size
  {
    BlockFits(x, size, x / size);
    BlockFits(y, size, x / size);
  }

  /** Tokens of block `i`; empty when the prompt has no such whole block. */
  function Block(tokens: seq<int>, size: nat, i: nat): seq<int> {
    if i * size <= (i + 1) * size <= |tokens| then tokens[i * size..(i + 1) * size] else []
  }

  /** The chain of the first `n` blocks. */
  function Chain(h: Hash, tokens: seq<int>, size: nat, n: nat): (c: seq<int>)
    ensures |c| == n
  {
    if n == 0 then []
    else
      var c := Chain(h, tokens, size, n - 1);
      c + [h(if n == 1 then ROOT else c[n - 2], Block(tokens, size, n - 1))]
  }

  method HashBlocks(h: Hash, tokens: seq<int>, size: nat) returns (hashes: seq<int>)
    requires size > 0
    ensures hashes == Chain(h, tokens, size, |tokens| / size)
  {
    hashes := [];
    var parent := ROOT;
    var full := |tokens| / size;
    for i := 0 to full
      invariant hashes == Chain(h, tokens, size, i)
      invariant parent == if i == 0 then ROOT else hashes[i - 1]
    {
      BlockFits(|tokens|, size, i + 1);
      assert i * size <= (i + 1) * size;
      parent := h(parent, tokens[i * size..(i + 1) * size]);
      hashes := hashes + [parent];
    }
  }

  lemma {:induction false} ChainPrefix(h: Hash, tokens: seq<int>, size: nat, m: nat, n: nat)
    requires m <= n
    ensures Chain(h, tokens, size, n)[..m] == Chain(h, tokens, size, m)
    decreases n
  {
    if m < n {
      ChainPrefix(h, tokens, size, m, n - 1);
      assert Chain(h, tokens, size, n)[..m] == Chain(h, tokens, size, n - 1)[..m];
    }
  }

  /** The two prompts agree on whole blocks exactly when they agree on the tokens. */
  lemma {:induction false} BlocksAgree(a: seq<int>, b: seq<int>, size: nat, n: nat)
    requires size > 0 && n * size <= |a| && n * size <= |b|
    ensures a[..n * size] == b[..n * size] <==> forall i :: 0 <= i < n ==> Block(a, size, i) == Block(b, size, i)
  {
    if n > 0 {
      var p, q := (n - 1) * size, n * size;
      assert q == p + size;
      BlocksAgree(a, b, size, n - 1);
      assert a[..q] == a[..p] + a[p..q] && b[..q] == b[..p] + b[p..q];
      assert Block(a, size, n - 1) == a[p..q] && Block(b, size, n - 1) == b[p..q];
      assert a[..q] == b[..q] ==> a[..q][..p] == b[..q][..p] && a[..q][p..] == b[..q][p..];
    }
  }

  /** Chains of length `n` are equal exactly when all their blocks are. */
  lemma {:induction false} ChainsAgree(h: Hash, a: seq<int>, b: seq<int>, size: nat, n: nat)
    requires Injective(h)
    ensures Chain(h, a, size, n) == Chain(h, b, size, n) <==>
            forall i :: 0 <= i < n ==> Block(a, size, i) == Block(b, size, i)
  {
    if n > 0 {
      ChainsAgree(h, a, b, size, n - 1);
      var c, d := Chain(h, a, size, n), Chain(h, b, size, n);
      assert c[..n - 1] == Chain(h, a, size, n - 1) && d[..n - 1] == Chain(h, b, size, n - 1);
      if c == d {
        assert c[n - 1] == d[n - 1];
      }
    }
  }

  /** Leading block hashes two prompts share. */
  ghost function SharedHashes(h: Hash, a: seq<int>, b: seq<int>, size: nat): (n: nat)
    requires size > 0
    ensures n <= |a| / size && n <= |b| / size
  {
    Common(Chain(h, a, size, |a| / size), Chain(h, b, size, |b| / size))
  }

  /** Whole blocks in the common token prefix of two prompts. */
  ghost function SharedTokenBlocks(a: seq<int>, b: seq<int>, size: nat): (n: nat)
    requires size > 0
    ensures n <= |a| / size && n <= |b| / size
  {
    FewerBlocks(Common(a, b), |a|, size);
    FewerBlocks(Common(a, b), |b|, size);
    Common(a, b) / size
  }

  lemma {:induction false} SharedUpTo(h: Hash, a: seq<int>, b: seq<int>, size: nat, n: nat)
    requires Injective(h) && size > 0 && n <= |a| / size && n <= |b| / size
    ensures n <= SharedHashes(h, a, b, size) <==> n <= SharedTokenBlocks(a, b, size)
  {
    hide Common, Chain, Injective;
    PrefixesAgree(h, a, b, size, n);
    CommonIsLongest(Chain(h, a, size, |a| / size), Chain(h, b, size, |b| / size), n);
    CommonIsLongest(a, b, n * size);
    BlockFits(Common(a, b), size, n);
  }

  /** Two prompts share exactly as many leading block hashes as whole blocks of common tokens. */
  lemma {:induction false} SharedPrefixIsExact(h: Hash, a: seq<int>, b: seq<int>, size: nat)
    requires Injective(h) && size > 0
    ensures SharedHashes(h, a, b, size) == SharedTokenBlocks(a, b, size)
  {
    hide SharedHashes, SharedTokenBlocks, Injective;
    SharedUpTo(h, a, b, size, SharedHashes(h, a, b, size));
    SharedUpTo(h, a, b, size, SharedTokenBlocks(a, b, size));
  }

  lemma {:induction false} PrefixesAgree(h: Hash, a: seq<int>, b: seq<int>, size: nat, n: nat)
    requires Injective(h) && size > 0 && n <= |a| / size && n <= |b| / size
    ensures n * size <= |a| && n * size <= |b|
    ensures Chain(h, a, size, |a| / size)[..n] == Chain(h, b, size, |b| / size)[..n] <==> a[..n * size] == b[..n * size]
  {
    BlockFits(|a|, size, n);
    BlockFits(|b|, size, n);
    ChainPrefix(h, a, size, n, |a| / size);
    ChainPrefix(h, b, size, n, |b| / size);
    ChainsAgree(h, a, b, size, n);
    BlocksAgree(a, b, size, n);
  }

  /** A prompt that grows keeps its chain as a prefix. */
  lemma {:induction false} GrowingPromptExtendsChain(h: Hash, tokens: seq<int>, more: seq<int>, size: nat)
    requires size > 0
    ensures Chain(h, tokens, size, |tokens| / size) <= Chain(h, tokens + more, size, |tokens + more| / size)
  {
    var n, m := |tokens| / size, |tokens + more| / size;
    BlockFits(|tokens|, size, n);
    BlockFits(|tokens + more|, size, n);
    ChainPrefix(h, tokens + more, size, n, m);
    SameLeadingChain(h, tokens, more, size, n);
  }

  lemma {:induction false} SameLeadingChain(h: Hash, tokens: seq<int>, more: seq<int>, size: nat, n: nat)
    requires n * size <= |tokens|
    ensures Chain(h, tokens, size, n) == Chain(h, tokens + more, size, n)
  {
    if n > 0 {
      var p, q := (n - 1) * size, n * size;
      assert p <= q;
      SameLeadingChain(h, tokens, more, size, n - 1);
      assert tokens[p..q] == (tokens + more)[p..q];
    }
  }

  /** No block hash repeats along a chain. */
  lemma {:induction false} ChainIsDistinct(h: Hash, tokens: seq<int>, size: nat, n: nat)
    requires Injective(h)
    ensures Distinct(Chain(h, tokens, size, n))
  {
    if n > 0 {
      ChainIsDistinct(h, tokens, size, n - 1);
      var c := Chain(h, tokens, size, n);
      forall i | 0 <= i < n - 1 ensures c[i] != c[n - 1] {
        if c[i] == c[n - 1] {
          EqualHashesShiftDown(h, tokens, size, n, i, n - 1);
        }
      }
    }
  }

  /** Hash `i` is computed from the hash before it. */
  lemma {:induction false} ChainAt(h: Hash, tokens: seq<int>, size: nat, n: nat, i: nat)
    requires i < n
    ensures var c := Chain(h, tokens, size, n);
            c[i] == h(if i == 0 then ROOT else c[i - 1], Block(tokens, size, i))
  {
    if i < n - 1 {
      ChainAt(h, tokens, size, n - 1, i);
    }
  }

  lemma {:induction false} EqualHashesShiftDown(h: Hash, tokens: seq<int>, size: nat, n: nat, i: nat, j: nat)
    requires Injective(h) && i < j < n
    ensures Chain(h, tokens, size, n)[i] != Chain(h, tokens, size, n)[j]
  {
    ChainAt(h, tokens, size, n, i);
    ChainAt(h, tokens, size, n, j);
    if i > 0 {
      EqualHashesShiftDown(h, tokens, size, n, i - 1, j - 1);
    } else {
      ChainAt(h, tokens, size, n, j - 1);
    }
  }

  // -------------------------------------------------------------- prefix matching

  /** Length of the longest leading run of `blocks` that is resident. */
  function Matched(blocks: seq<int>, cache: set<int>): (m: nat)
    ensures m <= |blocks|
    ensures forall i :: 0 <= i < m ==> blocks[i] in cache
    ensures m < |blocks| ==> blocks[m] !in cache
  {
    if blocks == [] || blocks[0] !in cache then 0 else 1 + Matched(blocks[1..], cache)
  }

  method MatchedPrefix(blocks: seq<int>, cache: set<int>) returns (matched: nat)
    ensures matched == Matched(blocks, cache)
  {
    matched := 0;
    for i := 0 to |blocks|
      invariant matched == i
      invariant forall k :: 0 <= k < i ==> blocks[k] in cache
    {
      if blocks[i] in cache {
        matched := matched + 1;
      } else {
        break;
      }
    }
    MatchedAtLeast(blocks, cache, matched);
  }

  lemma MatchedAtLeast(blocks: seq<int>, cache: set<int>, k: nat)
    requires k <= |blocks| && forall i :: 0 <= i < k ==> blocks[i] in cache
    ensures k <= Matched(blocks, cache)
  {
  }

  lemma {:induction false} MatchedGrows(blocks: seq<int>, small: set<int>, large: set<int>)
    requires small <= large
    ensures Matched(blocks, small) <= Matched(blocks, large)
  {
    MatchedAtLeast(blocks, large, Matched(blocks, small));
  }

  /** The contiguous match never counts more than the blocks that are resident at all. */
  lemma {:induction false} MatchedWithinHits(blocks: seq<int>, cache: set<int>)
    requires Distinct(blocks)
    ensures Matched(blocks, cache) <= |cache * Elems(blocks)|
  {
    var run := blocks[..Matched(blocks, cache)];
    DistinctCardinality(run);
    assert Elems(run) <= cache * Elems(blocks);
    SubsetCardinality(Elems(run), cache * Elems(blocks));
  }
}
