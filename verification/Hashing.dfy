/** Content addresses of KV blocks (crates/vapi-cache/src/hash.rs).

    The digest is modelled as collision-free: a digest *is* the byte string it
    was computed from, with an embedded parent digest kept as one item (32 bytes
    of fixed width in the program). What remains to be proved is that the byte
    strings fed to it never coincide by accident. */
module Hashing {
  import opened Prelude

  datatype BlockHash = Digest(preimage: seq<Item>)
  datatype Item = Raw(b: byte) | Embedded(digest: BlockHash)

  datatype DType = F32 | F16 | BF16

  function Code(d: DType): byte {
    match d case F32 => 0 case F16 => 1 case BF16 => 2
  }

  // ------------------------------------------------------------ encodings

  function Bytes(s: seq<byte>): (r: seq<Item>)
    ensures |r| == |s|
    ensures forall i :: 0 <= i < |s| ==> r[i] == Raw(s[i])
  {
    seq(|s|, i requires 0 <= i < |s| => Raw(s[i]))
  }

  /** `to_le_bytes` of a word of `width` bytes. */
  function LittleEndian(n: nat, width: nat): (r: seq<Item>)
    ensures |r| == width
  {
    if width == 0 then [] else [Raw(n % 256)] + LittleEndian(n / 256, width - 1)
  }

  ghost function Pow256(k: nat): nat {
    if k == 0 then 1 else 256 * Pow256(k - 1)
  }

  lemma {:induction false} LittleEndianInjective(a: nat, b: nat, width: nat)
    requires a < Pow256(width) && b < Pow256(width)
    requires LittleEndian(a, width) == LittleEndian(b, width)
    ensures a == b
  {
    if width > 0 {
      var x, y := LittleEndian(a, width), LittleEndian(b, width);
      assert x[0] == y[0];
      assert x[1..] == LittleEndian(a / 256, width - 1);
      assert y[1..] == LittleEndian(b / 256, width - 1);
      LittleEndianInjective(a / 256, b / 256, width - 1);
    }
  }

  lemma Word64(n: nat)
    requires n < 0x1_0000_0000_0000_0000
    ensures n < Pow256(8)
  {
    assert Pow256(4) == 0x1_0000_0000;
    assert Pow256(8) == 256 * (256 * (256 * (256 * Pow256(4))));
  }

  lemma Word32(n: nat)
    requires n < 0x1_0000_0000
    ensures n < Pow256(4)
  {
    assert Pow256(4) == 256 * (256 * (256 * (256 * Pow256(0))));
  }

  /** One length-prefixed field. */
  function Field(s: Text): seq<Item> {
    LittleEndian(|s|, 8) + Bytes(s)
  }

  /** Length prefixes make a field self-delimiting: ("ab","c") is not ("a","bc"). */
  lemma FieldsDelimited(s: Text, t: Text, u: seq<Item>, v: seq<Item>)
    requires Field(s) + u == Field(t) + v
    ensures s == t && u == v
  {
    var x, y := Field(s) + u, Field(t) + v;
    assert x[..8] == LittleEndian(|s|, 8);
    assert y[..8] == LittleEndian(|t|, 8);
    Word64(|s|);
    Word64(|t|);
    LittleEndianInjective(|s|, |t|, 8);
    forall i | 0 <= i < |s| ensures s[i] == t[i] {
      assert x[8 + i] == Raw(s[i]) && y[8 + i] == Raw(t[i]);
    }
    assert u == x[8 + |s|..] && v == y[8 + |t|..];
  }

  function Words(ts: seq<u32>): (r: seq<Item>)
    ensures |r| == 4 * |ts|
  {
    if ts == [] then [] else Words(ts[..|ts| - 1]) + LittleEndian(ts[|ts| - 1], 4)
  }

  lemma {:induction false} WordsInjective(a: seq<u32>, b: seq<u32>)
    requires Words(a) == Words(b)
    ensures a == b
  {
    assert |a| == |b|;
    if a != [] {
      var n := |a| - 1;
      var x, y := Words(a), Words(b);
      assert x[..4 * n] == Words(a[..n]) && y[..4 * n] == Words(b[..n]);
      assert x[4 * n..] == LittleEndian(a[n], 4) && y[4 * n..] == LittleEndian(b[n], 4);
      Word32(a[n]);
      Word32(b[n]);
      LittleEndianInjective(a[n], b[n], 4);
      WordsInjective(a[..n], b[..n]);
      assert a == a[..n] + [a[n]] && b == b[..n] + [b[n]];
    }
  }

  // ----------------------------------------------------------- namespaces

  /** "vapi-cache-ns-v1" and "vapi-block-v1". */
  const NamespaceTag: seq<byte> := [118, 97, 112, 105, 45, 99, 97, 99, 104, 101, 45, 110, 115, 45, 118, 49]
  const BlockTag: seq<byte> := [118, 97, 112, 105, 45, 98, 108, 111, 99, 107, 45, 118, 49]

  datatype CacheNamespace = CacheNamespace(
    root: BlockHash,
    tenant: Text,
    modelId: Text,
    weights: Text,
    lora: Option<Text>,
    dtype: DType)

  function LoraOr(lora: Option<Text>): Text {
    match lora case None => [] case Some(s) => s
  }

  function RootPreimage(modelId: Text, weights: Text, dtype: DType, lora: Option<Text>, tenant: Text): seq<Item> {
    Bytes(NamespaceTag)
    + (Field(modelId) + (Field(weights) + (Field(LoraOr(lora)) + (Field(tenant) + [Raw(Code(dtype))]))))
  }

  function NewNamespace(modelId: Text, weights: Text, dtype: DType, lora: Option<Text>, tenant: Text): (ns: CacheNamespace)
    ensures ns.tenant == tenant
  {
    CacheNamespace(Digest(RootPreimage(modelId, weights, dtype, lora, tenant)), tenant, modelId, weights, lora, dtype)
  }

  function ForTenant(ns: CacheNamespace, tenant: Text): CacheNamespace {
    NewNamespace(ns.modelId, ns.weights, ns.dtype, ns.lora, tenant)
  }

  /** Built by the constructor, the only way the program makes one. */
  ghost predicate Built(ns: CacheNamespace) {
    ns == NewNamespace(ns.modelId, ns.weights, ns.dtype, ns.lora, ns.tenant)
  }

  /** Two namespaces a cached block may cross: an absent and an empty adapter are one. */
  ghost predicate SameNamespace(a: CacheNamespace, b: CacheNamespace) {
    a.modelId == b.modelId && a.weights == b.weights && a.dtype == b.dtype
    && LoraOr(a.lora) == LoraOr(b.lora) && a.tenant == b.tenant
  }

  lemma RootsAgree(a: CacheNamespace, b: CacheNamespace)
    requires Built(a) && Built(b)
    ensures a.root == b.root <==> SameNamespace(a, b)
  {
    if a.root == b.root {
      var x, y := a.root.preimage, b.root.preimage;
      var n := |NamespaceTag|;
      var x1 := Field(a.modelId) + (Field(a.weights) + (Field(LoraOr(a.lora)) + (Field(a.tenant) + [Raw(Code(a.dtype))])));
      var y1 := Field(b.modelId) + (Field(b.weights) + (Field(LoraOr(b.lora)) + (Field(b.tenant) + [Raw(Code(b.dtype))])));
      assert x[n..] == x1 && y[n..] == y1;
      var x2 := Field(a.weights) + (Field(LoraOr(a.lora)) + (Field(a.tenant) + [Raw(Code(a.dtype))]));
      var y2 := Field(b.weights) + (Field(LoraOr(b.lora)) + (Field(b.tenant) + [Raw(Code(b.dtype))]));
      FieldsDelimited(a.modelId, b.modelId, x2, y2);
      var x3 := Field(LoraOr(a.lora)) + (Field(a.tenant) + [Raw(Code(a.dtype))]);
      var y3 := Field(LoraOr(b.lora)) + (Field(b.tenant) + [Raw(Code(b.dtype))]);
      FieldsDelimited(a.weights, b.weights, x3, y3);
      var x4 := Field(a.tenant) + [Raw(Code(a.dtype))];
      var y4 := Field(b.tenant) + [Raw(Code(b.dtype))];
      FieldsDelimited(LoraOr(a.lora), LoraOr(b.lora), x4, y4);
      FieldsDelimited(a.tenant, b.tenant, [Raw(Code(a.dtype))], [Raw(Code(b.dtype))]);
      assert [Raw(Code(a.dtype))][0] == [Raw(Code(b.dtype))][0];
    }
  }

  // --------------------------------------------------------- block chains

  function BlockPreimage(parent: BlockHash, tokens: seq<u32>): seq<Item> {
    Bytes(BlockTag) + ([Embedded(parent)] + (LittleEndian(|tokens|, 8) + Words(tokens)))
  }

  function HashBlock(parent: BlockHash, tokens: seq<u32>): BlockHash {
    Digest(BlockPreimage(parent, tokens))
  }

  lemma HashBlockInjective(p: BlockHash, s: seq<u32>, q: BlockHash, t: seq<u32>)
    requires HashBlock(p, s) == HashBlock(q, t)
    ensures p == q && s == t
  {
    var x, y := BlockPreimage(p, s), BlockPreimage(q, t);
    var n := |BlockTag|;
    assert x[n] == Embedded(p) && y[n] == Embedded(q);
    assert x[n + 9..] == Words(s) && y[n + 9..] == Words(t);
    WordsInjective(s, t);
  }

  /** A namespace root is never the hash of a block: the two tags differ. */
  lemma RootIsNoBlock(ns: CacheNamespace, p: BlockHash, s: seq<u32>)
    requires Built(ns)
    ensures ns.root != HashBlock(p, s)
  {
    assert ns.root.preimage[5] == Raw(99);
    assert BlockPreimage(p, s)[5] == Raw(98);
  }

  /** The address of the last block of a token prefix: every block before it is mixed in. */
  function Chain(root: BlockHash, tokens: seq<u32>, blockSize: nat): BlockHash
    requires blockSize > 0
    decreases |tokens|
  {
    if |tokens| < blockSize then root
    else
      var n := |tokens| - blockSize;
      HashBlock(Chain(root, tokens[..n], blockSize), tokens[n..])
  }

  /** An address determines the root and the whole prefix, provided neither root is a block. */
  lemma {:induction false} ChainDetermines(a: BlockHash, s: seq<u32>, b: BlockHash, t: seq<u32>, blockSize: nat)
    requires blockSize > 0
    requires forall p, u :: a != HashBlock(p, u) && b != HashBlock(p, u)
    requires |s| % blockSize == 0 && |t| % blockSize == 0
    requires Chain(a, s, blockSize) == Chain(b, t, blockSize)
    ensures a == b && s == t
    decreases |s|
  {
    if |s| < blockSize {
      ShortMultiple(|s|, blockSize);
      if |t| < blockSize {
        ShortMultiple(|t|, blockSize);
      }
    } else if |t| >= blockSize {
      var n, m := |s| - blockSize, |t| - blockSize;
      HashBlockInjective(Chain(a, s[..n], blockSize), s[n..], Chain(b, t[..m], blockSize), t[m..]);
      LessOneBlock(|s|, blockSize);
      LessOneBlock(|t|, blockSize);
      ChainDetermines(a, s[..n], b, t[..m], blockSize);
      assert s == s[..n] + s[n..] && t == t[..m] + t[m..];
    }
  }

  /** Under a collision-free digest an address determines the namespace and the whole prefix. */
  lemma ChainInjective(a: CacheNamespace, s: seq<u32>, b: CacheNamespace, t: seq<u32>, blockSize: nat)
    requires blockSize > 0 && Built(a) && Built(b)
    requires |s| % blockSize == 0 && |t| % blockSize == 0
    ensures Chain(a.root, s, blockSize) == Chain(b.root, t, blockSize) <==> SameNamespace(a, b) && s == t
  {
    RootsAgree(a, b);
    if Chain(a.root, s, blockSize) == Chain(b.root, t, blockSize) {
      forall p, u ensures a.root != HashBlock(p, u) && b.root != HashBlock(p, u) {
        RootIsNoBlock(a, p, u);
        RootIsNoBlock(b, p, u);
      }
      ChainDetermines(a.root, s, b.root, t, blockSize);
    }
  }

  lemma ShortMultiple(n: nat, d: nat)
    requires d > 0 && n % d == 0 && n < d
    ensures n == 0
  {}

  lemma LessOneBlock(n: nat, d: nat)
    requires d > 0 && n % d == 0 && n >= d
    ensures (n - d) % d == 0
  {
    DivUnique(n / d - 1, 0, d);
    assert n == (n / d) * d;
    assert (n / d - 1) * d == n - d;
  }

  /** The position just past block `k`. */
  function BlockEnd(k: nat, blockSize: nat): nat {
    (k + 1) * blockSize
  }

  lemma BlockEnds(len: nat, blockSize: nat)
    requires blockSize > 0
    ensures forall k: nat {:trigger BlockEnd(k, blockSize)} :: k < len / blockSize ==> BlockEnd(k, blockSize) <= len
  {
    forall k: nat {:trigger BlockEnd(k, blockSize)} | k < len / blockSize ensures BlockEnd(k, blockSize) <= len {
      MulMono(k + 1, len / blockSize, blockSize);
    }
  }

  /** `hash_block_chain`: one address per full block, a trailing partial block left out. */
  ghost function ChainHashes(root: BlockHash, tokens: seq<u32>, blockSize: nat): (r: seq<BlockHash>)
    requires blockSize > 0
    ensures |r| == |tokens| / blockSize
    ensures forall k :: 0 <= k < |r| ==> BlockEnd(k, blockSize) <= |tokens| && r[k] == Chain(root, tokens[..BlockEnd(k, blockSize)], blockSize)
  {
    var n := |tokens| / blockSize;
    BlockEnds(|tokens|, blockSize);
    seq(n, k requires 0 <= k < n => Chain(root, tokens[..BlockEnd(k, blockSize)], blockSize))
  }

  lemma ChainGrows(root: BlockHash, tokens: seq<u32>, blockSize: nat, at: nat)
    requires blockSize > 0 && at + blockSize <= |tokens| && at % blockSize == 0
    ensures HashBlock(Chain(root, tokens[..at], blockSize), tokens[at..at + blockSize]) == Chain(root, tokens[..at + blockSize], blockSize)
  {
    assert tokens[..at + blockSize][..at] == tokens[..at];
    assert tokens[..at + blockSize][at..] == tokens[at..at + blockSize];
    if at == 0 {
      assert tokens[..at] == [];
    }
    hide HashBlock;
  }

  lemma StepFits(n: nat, at: nat, blockSize: nat, len: nat)
    requires blockSize > 0 && at == n * blockSize && at + blockSize <= len
    ensures n < len / blockSize && (n + 1) * blockSize == at + blockSize && at % blockSize == 0 && BlockEnd(n, blockSize) == at + blockSize
  {
    assert (n + 1) * blockSize == at + blockSize;
    DivMono(at + blockSize, len, blockSize);
    DivUnique(n + 1, 0, blockSize);
    DivUnique(n, 0, blockSize);
  }

  lemma ChainHashesAt(root: BlockHash, tokens: seq<u32>, blockSize: nat, k: nat)
    requires blockSize > 0 && k < |tokens| / blockSize
    ensures |ChainHashes(root, tokens, blockSize)| == |tokens| / blockSize && BlockEnd(k, blockSize) <= |tokens|
    ensures ChainHashes(root, tokens, blockSize)[k] == Chain(root, tokens[..BlockEnd(k, blockSize)], blockSize)
  {
    hide Chain, BlockEnd;
  }

  /** One block more. */
  lemma ChainStep(root: BlockHash, tokens: seq<u32>, blockSize: nat, n: nat, at: nat)
    requires blockSize > 0 && at == n * blockSize && at + blockSize <= |tokens|
    ensures n < |tokens| / blockSize && (n + 1) * blockSize == at + blockSize && |ChainHashes(root, tokens, blockSize)| == |tokens| / blockSize
    ensures HashBlock(Chain(root, tokens[..at], blockSize), tokens[at..at + blockSize]) == Chain(root, tokens[..at + blockSize], blockSize)
    ensures ChainHashes(root, tokens, blockSize)[n] == Chain(root, tokens[..at + blockSize], blockSize)
  {
    hide *;
    StepFits(n, at, blockSize, |tokens|);
    ChainGrows(root, tokens, blockSize, at);
    ChainHashesAt(root, tokens, blockSize, n);
  }

  method HashBlockChain(ns: CacheNamespace, tokens: seq<u32>, blockSize: nat) returns (out: seq<BlockHash>)
    requires blockSize > 0
    ensures out == ChainHashes(ns.root, tokens, blockSize)
  {
    out := [];
    var parent := ns.root;
    var at := 0;
    while at + blockSize <= |tokens|
      invariant 0 <= at <= |tokens|
      invariant at == |out| * blockSize
      invariant |out| <= |tokens| / blockSize
      invariant parent == Chain(ns.root, tokens[..at], blockSize)
      invariant out == ChainHashes(ns.root, tokens, blockSize)[..|out|]
      decreases |tokens| - at
    {
      ChainStep(ns.root, tokens, blockSize, |out|, at);
      hide Chain, HashBlock;
      parent := HashBlock(parent, tokens[at..at + blockSize]);
      ghost var full := ChainHashes(ns.root, tokens, blockSize);
      assert full[..|out| + 1] == full[..|out|] + [full[|out|]];
      hide ChainHashes;
      out := out + [parent];
      at := at + blockSize;
    }
    assert |out| == |tokens| / blockSize by {
      DivUnique(|out|, |tokens| - at, blockSize);
    }
  }

  /** Two chains agree at a block exactly when everything up to its end agrees. */
  lemma ChainsShareABlock(a: CacheNamespace, s: seq<u32>, b: CacheNamespace, t: seq<u32>, blockSize: nat, j: nat, k: nat)
    requires blockSize > 0 && Built(a) && Built(b)
    requires j < |s| / blockSize && k < |t| / blockSize
    ensures BlockEnd(j, blockSize) <= |s| && BlockEnd(k, blockSize) <= |t|
    ensures ChainHashes(a.root, s, blockSize)[j] == ChainHashes(b.root, t, blockSize)[k]
       <==> SameNamespace(a, b) && j == k && s[..BlockEnd(j, blockSize)] == t[..BlockEnd(k, blockSize)]
  {
    var m, n := BlockEnd(j, blockSize), BlockEnd(k, blockSize);
    BlockEnds(|s|, blockSize);
    BlockEnds(|t|, blockSize);
    DivUnique(j + 1, 0, blockSize);
    DivUnique(k + 1, 0, blockSize);
    ChainInjective(a, s[..m], b, t[..n], blockSize);
    assert s[..m] == t[..n] ==> m == n;
  }

  // ------------------------------------------- what the scheduler relies on

  /** A prefix address as the scheduler sees it: tenant and token prefix in, digest out. */
  type PrefixHash = (Text, seq<u32>) -> BlockHash

  /** Equal addresses mean equal tenants and equal prefixes, for prefixes of whole blocks. */
  ghost predicate CollisionFree(hash: PrefixHash, blockSize: nat)
    requires blockSize > 0
  {
    forall t: Text, s: seq<u32>, t': Text, s': seq<u32> ::
      |s| % blockSize == 0 && |s'| % blockSize == 0 && hash(t, s) == hash(t', s') ==> t == t' && s == s'
  }

  /** `namespace_for` followed by the block chain. */
  function TenantHash(base: CacheNamespace, blockSize: nat): PrefixHash
    requires blockSize > 0
  {
    (tenant: Text, prefix: seq<u32>) =>
      Chain((if tenant == base.tenant then base else ForTenant(base, tenant)).root, prefix, blockSize)
  }

  lemma TenantHashCollisionFree(base: CacheNamespace, blockSize: nat)
    requires blockSize > 0 && Built(base)
    ensures CollisionFree(TenantHash(base, blockSize), blockSize)
  {
    var hash := TenantHash(base, blockSize);
    forall t: Text, s: seq<u32>, t': Text, s': seq<u32>
      | |s| % blockSize == 0 && |s'| % blockSize == 0 && hash(t, s) == hash(t', s')
      ensures t == t' && s == s'
    {
      var a := if t == base.tenant then base else ForTenant(base, t);
      var b := if t' == base.tenant then base else ForTenant(base, t');
      ChainInjective(a, s, b, s', blockSize);
    }
  }
}
