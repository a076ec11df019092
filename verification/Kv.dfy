/** The paged KV cache and the forward pass over it.

    A row is what one forwarded token leaves in the cache. It is a function of the
    token, its position and the rows it attends to, and nothing else is known about it:
    rows are free terms over those three. `Junk` is whatever a block held before. */
module Kv {
  import opened Prelude
  import opened PoolModel
  import opened SchedulerModel

  datatype Row = Junk(n: int) | Row(token: u32, position: nat, context: seq<Row>)

  /** Block, then offset within the block: the cache tensor's two leading dimensions. */
  type Cache = seq<seq<Row>>

  /** The rows of a text computed alone, from the beginning, with no cache. */
  function Ideal(tokens: seq<u32>): (r: seq<Row>)
    ensures |r| == |tokens|
    decreases |tokens|
  {
    if tokens == [] then []
    else
      var n := |tokens| - 1;
      var context := Ideal(tokens[..n]);
      context + [Row(tokens[n], n, context)]
  }

  lemma {:induction false} IdealPrefix(tokens: seq<u32>, k: nat)
    requires k <= |tokens|
    ensures Ideal(tokens)[..k] == Ideal(tokens[..k])
    decreases |tokens|
  {
    if k < |tokens| {
      var n := |tokens| - 1;
      IdealPrefix(tokens[..n], k);
      assert tokens[..n][..k] == tokens[..k];
      assert Ideal(tokens)[..k] == Ideal(tokens[..n])[..k];
    } else {
      assert tokens[..k] == tokens;
    }
  }

  lemma IdealAt(tokens: seq<u32>, k: nat)
    requires k < |tokens|
    ensures Ideal(tokens)[k] == Row(tokens[k], k, Ideal(tokens[..k])) && Ideal(tokens)[..k] == Ideal(tokens[..k])
  {
    IdealPrefix(tokens, k);
    IdealPrefix(tokens, k + 1);
    assert tokens[..k + 1][..k] == tokens[..k];
    assert Ideal(tokens)[k] == Ideal(tokens)[..k + 1][k];
  }

  /** Different texts have different rows at every position they both have after the difference. */
  lemma {:induction false} IdealInjective(a: seq<u32>, b: seq<u32>)
    requires a != [] && b != [] && Ideal(a)[|a| - 1] == Ideal(b)[|b| - 1]
    ensures a == b
    decreases |a|
  {
    var n := |a| - 1;
    IdealAt(a, n);
    IdealAt(b, |b| - 1);
    assert a == a[..n] + [a[n]] && b == b[..n] + [b[n]];
    if n > 0 {
      assert Ideal(a[..n])[n - 1] == Ideal(b[..n])[n - 1];
      IdealInjective(a[..n], b[..n]);
    }
  }

  // ------------------------------------------------------- reading, writing

  predicate CacheShape(kv: Cache, numBlocks: nat, blockSize: nat) {
    |kv| == numBlocks && forall b :: 0 <= b < |kv| ==> |kv[b]| == blockSize
  }

  /** Position `p` of a sequence, through its block table. */
  function RowAt(kv: Cache, blockSize: nat, table: seq<BlockId>, p: nat): Row
    requires blockSize > 0
  {
    if p / blockSize < |table| && table[p / blockSize] < |kv| && p % blockSize < |kv[table[p / blockSize]]|
    then kv[table[p / blockSize]][p % blockSize] else Junk(0)
  }

  /** `gather_kv`: the first `len` rows of a sequence, in logical order. */
  function Gather(kv: Cache, blockSize: nat, table: seq<BlockId>, len: nat): (r: seq<Row>)
    requires blockSize > 0
    ensures |r| == len && forall p :: 0 <= p < len ==> r[p] == RowAt(kv, blockSize, table, p)
  {
    seq(len, (p: nat) => RowAt(kv, blockSize, table, p))
  }

  /** Write through the flat slot view. */
  function WriteSlot(kv: Cache, blockSize: nat, slot: nat, row: Row): Cache
    requires blockSize > 0
  {
    var b, o := slot / blockSize, slot % blockSize;
    if b < |kv| && o < |kv[b]| then kv[b := kv[b][o := row]] else kv
  }

  // ---------------------------------------------------------- the forward

  /** One token: its row attends to the rows of its own sequence before it. The tokens of a chunk are
      taken in order, so each sees those before it in the same chunk. */
  function ForwardToken(kv: Cache, blockSize: nat, b: Batch, table: seq<BlockId>, j: nat): Cache
    requires blockSize > 0
  {
    if j < |b.tokens| && j < |b.positions| && j < |b.slots| then
      WriteSlot(kv, blockSize, b.slots[j], Row(b.tokens[j], b.positions[j], Gather(kv, blockSize, table, b.positions[j])))
    else kv
  }

  function ForwardRow(kv: Cache, blockSize: nat, b: Batch, table: seq<BlockId>, j: nat, hi: nat): Cache
    requires blockSize > 0
    decreases hi - j
  {
    if j >= hi then kv else ForwardRow(ForwardToken(kv, blockSize, b, table, j), blockSize, b, table, j + 1, hi)
  }

  /** Rows `i..` of the batch. */
  function Forward(kv: Cache, blockSize: nat, b: Batch, i: nat): Cache
    requires blockSize > 0
    decreases |b.cuQ| - i
  {
    if i + 1 >= |b.cuQ| || i >= |b.tables| then kv
    else Forward(ForwardRow(kv, blockSize, b, b.tables[i], b.cuQ[i], b.cuQ[i + 1]), blockSize, b, i + 1)
  }

  /** The rows the sampler's logits are computed from, for logit `k`: everything the sequence in
      row `i` attends to. */
  function Context(kv: Cache, blockSize: nat, b: Batch, i: nat): seq<Row>
    requires blockSize > 0
  {
    if i + 1 < |b.cuK| && i < |b.tables| && b.cuK[i] <= b.cuK[i + 1]
    then Gather(kv, blockSize, b.tables[i], b.cuK[i + 1] - b.cuK[i]) else []
  }

  /** `copy_blocks`. */
  function CopyBlocks(kv: Cache, pairs: seq<(BlockId, BlockId)>): Cache
    decreases |pairs|
  {
    if pairs == [] then kv
    else
      var (from, to) := pairs[0];
      CopyBlocks(if from < |kv| && to < |kv| then kv[to := kv[from]] else kv, pairs[1..])
  }

  // ----------------------------------------------------------- slot algebra

  /** A slot is a block and an offset; writing one changes that row and no other. */
  lemma WriteIs(kv: Cache, blockSize: nat, b: BlockId, o: nat, row: Row)
    requires blockSize > 0 && b < |kv| && o < blockSize && |kv[b]| == blockSize
    ensures WriteSlot(kv, blockSize, b * blockSize + o, row) == kv[b := kv[b][o := row]]
  {
    DivUnique(b, o, blockSize);
  }

  lemma SlotIs(blockSize: nat, blocks: seq<BlockId>, p: nat)
    requires blockSize > 0 && p / blockSize < |blocks|
    ensures Slot(blockSize, blocks, p) == blocks[p / blockSize] * blockSize + p % blockSize
  {}

  /** Two positions of a list without repeats never share a block and an offset. */
  lemma PositionsApart(blockSize: nat, blocks: seq<BlockId>, p: nat, q: nat)
    requires blockSize > 0 && NoDup(blocks) && p / blockSize < |blocks| && q / blockSize < |blocks| && p != q
    ensures blocks[p / blockSize] != blocks[q / blockSize] || p % blockSize != q % blockSize
  {
    if p / blockSize == q / blockSize {
      assert p == (p / blockSize) * blockSize + p % blockSize;
      assert q == (q / blockSize) * blockSize + q % blockSize;
    }
  }
}
