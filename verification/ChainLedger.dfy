/** The chain ledger of chain_ledger_impl.go: block file, index tables and chain
    meta, and the rollback that must take all of them back together. */
module ChainLedger {
  import opened GoBytes

  type Hash = Bytes

  /** A block with its transaction hashes and the lengths of its interchain counters. */
  datatype Block = Block(number: nat, hash: Hash, txs: seq<Hash>, counters: seq<nat>)

  datatype TxMeta = TxMeta(height: nat, blockHash: Hash, index: nat)

  /** `None` is the nil block hash of an empty `pb.ChainMeta`. */
  datatype ChainMeta = ChainMeta(height: nat, blockHash: Option<Hash>, interchainTxCount: nat)

  datatype Chain = Chain(
    file: seq<Block>,
    txMeta: map<Hash, TxMeta>,
    heights: map<Hash, nat>,
    hashes: map<nat, Hash>,
    txSets: map<nat, seq<Hash>>,
    storedMeta: Option<ChainMeta>,
    meta: ChainMeta)

  const ZERO_HASH: Hash := []
  const EMPTY := Chain([], map[], map[], map[], map[], None, ChainMeta(0, Some(ZERO_HASH), 0))

  function Sum(ns: seq<nat>): nat {
    if ns == [] then 0 else Sum(ns[..|ns| - 1]) + ns[|ns| - 1]
  }

  /** One counter counts itself, and counters add up in any split. */
  lemma {:induction false} SumAdds(a: seq<nat>, b: seq<nat>, n: nat)
    ensures Sum([]) == 0 && Sum([n]) == n && Sum(a + b) == Sum(a) + Sum(b)
    decreases |b|
  {
    assert [n][..0] == [];
    if b == [] {
      assert a + b == a;
    } else {
      var front := b[..|b| - 1];
      SumAdds(a, front, n);
      assert (a + b)[..|a + b| - 1] == a + front;
    }
  }

  // ---- persisting -----------------------------------------------------------------------

  /** The metas of the first `n` transactions; a repeated hash keeps the later index. */
  function PutMetas(m: map<Hash, TxMeta>, b: Block, n: nat): map<Hash, TxMeta>
    requires n <= |b.txs|
  {
    if n == 0 then m else PutMetas(m, b, n - 1)[b.txs[n - 1] := TxMeta(b.number, b.hash, n - 1)]
  }

  function Persist(c: Chain, b: Block): Chain {
    var meta := ChainMeta(b.number, Some(b.hash), Sum(b.counters) + c.meta.interchainTxCount);
    Chain(c.file + [b], PutMetas(c.txMeta, b, |b.txs|), c.heights[b.hash := b.number],
          c.hashes[b.number := b.hash], c.txSets[b.number := b.txs], Some(meta), meta)
  }

  function PersistAll(blocks: seq<Block>): Chain {
    if blocks == [] then EMPTY
    else Persist(PersistAll(blocks[..|blocks| - 1]), blocks[|blocks| - 1])
  }

  /** Block `i` of the chain has number `i + 1`. */
  predicate Numbered(blocks: seq<Block>) {
    forall i | 0 <= i < |blocks| :: blocks[i].number == i + 1
  }

  // ---- rolling back ------------------------------------------------------------------------

  function Without<K, V>(m: map<K, V>, ks: seq<K>): map<K, V> {
    map k | k in m && k !in ks :: m[k]
  }

  /** Unsigned subtraction. */
  function Minus(a: nat, b: nat): nat {
    if b <= a then a - b else (a - b) % UINT64
  }

  /** `removeChainDataOnBlock`, with the transaction hashes that were stored. */
  function RemoveBlock(c: Chain, i: nat, txs: seq<Hash>): Chain
    requires 1 <= i <= |c.file|
  {
    var b := c.file[i - 1];
    c.(file := c.file[..i - 1], txSets := c.txSets - {i}, heights := c.heights - {b.hash},
       txMeta := Without(c.txMeta, txs),
       meta := c.meta.(interchainTxCount := Minus(c.meta.interchainTxCount, Sum(b.counters))))
  }

  /** The blocks above `height`, from `i` down.  Deletions are batched, so the
      transaction sets are read as `stored` before the rollback. */
  function RemoveAbove(c: Chain, stored: map<nat, seq<Hash>>, i: nat, height: nat): Option<Chain>
    decreases i
  {
    if i <= height then Some(c)
    else if !(1 <= i <= |c.file| && i in stored) then None
    else RemoveAbove(RemoveBlock(c, i, stored[i]), stored, i - 1, height)
  }

  datatype RollbackResult = RolledBack | ToHigherNumber | Unreadable

  function Rollback(c: Chain, height: nat): (Chain, RollbackResult) {
    if c.meta.height < height then (c, ToHigherNumber)
    else if c.meta.height == height then (c, RolledBack)
    else
      match RemoveAbove(c, c.txSets, c.meta.height, height)
      case None => (c, Unreadable)
      case Some(r) =>
        if height == 0 then (r.(storedMeta := None, meta := ChainMeta(0, None, 0)), RolledBack)
        else if !(height <= |r.file| && height in c.txSets) then (c, Unreadable)
        else
          var b := r.file[height - 1];
          var meta := ChainMeta(b.number, Some(b.hash), r.meta.interchainTxCount);
          (r.(storedMeta := Some(meta), meta := meta), RolledBack)
  }

  // ---- what the tables hold ------------------------------------------------------------------

  predicate HasTx(blocks: seq<Block>, from: nat, t: Hash) {
    exists j :: from <= j < |blocks| && t in blocks[j].txs
  }

  predicate HasHash(blocks: seq<Block>, from: nat, h: Hash) {
    exists j :: from <= j < |blocks| && blocks[j].hash == h
  }

  function Counted(blocks: seq<Block>): nat {
    if blocks == [] then 0 else Counted(blocks[..|blocks| - 1]) + Sum(blocks[|blocks| - 1].counters)
  }

  lemma {:induction false} PutMetasKeys(m: map<Hash, TxMeta>, b: Block, n: nat, t: Hash)
    requires n <= |b.txs|
    ensures if t in b.txs[..n] then t in PutMetas(m, b, n) else Lookup(PutMetas(m, b, n), t) == Lookup(m, t)
  {
    if n > 0 {
      PutMetasKeys(m, b, n - 1, t);
      assert b.txs[..n] == b.txs[..n - 1] + [b.txs[n - 1]];
    }
  }

  /** A transaction that no later block repeats keeps its meta. */
  lemma {:induction false} MetaKept(blocks: seq<Block>, h: nat, t: Hash)
    requires h <= |blocks| && !HasTx(blocks, h, t)
    ensures Lookup(PersistAll(blocks).txMeta, t) == Lookup(PersistAll(blocks[..h]).txMeta, t)
  {
    var n := |blocks|;
    if h < n {
      var front := blocks[..n - 1];
      assert t !in blocks[n - 1].txs;
      PutMetasKeys(PersistAll(front).txMeta, blocks[n - 1], |blocks[n - 1].txs|, t);
      assert blocks[n - 1].txs[..|blocks[n - 1].txs|] == blocks[n - 1].txs;
      assert forall j | h <= j < |front| :: front[j] == blocks[j] && t !in blocks[j].txs;
      MetaKept(front, h, t);
      assert front[..h] == blocks[..h];
    } else {
      assert blocks[..h] == blocks;
    }
  }

  lemma {:induction false} MetaPresent(blocks: seq<Block>, t: Hash)
    ensures t in PersistAll(blocks).txMeta <==> HasTx(blocks, 0, t)
  {
    if blocks != [] {
      var n := |blocks|;
      var front, b := blocks[..n - 1], blocks[n - 1];
      MetaPresent(front, t);
      PutMetasKeys(PersistAll(front).txMeta, b, |b.txs|, t);
      assert b.txs[..|b.txs|] == b.txs;
      if HasTx(front, 0, t) {
        var j :| 0 <= j < |front| && t in front[j].txs;
        assert t in blocks[j].txs;
      }
      if HasTx(blocks, 0, t) && t !in b.txs {
        var j :| 0 <= j < |blocks| && t in blocks[j].txs;
        assert t in front[j].txs;
      }
    }
  }

  lemma {:induction false} HeightKept(blocks: seq<Block>, h: nat, x: Hash)
    requires h <= |blocks| && !HasHash(blocks, h, x)
    ensures Lookup(PersistAll(blocks).heights, x) == Lookup(PersistAll(blocks[..h]).heights, x)
  {
    var n := |blocks|;
    if h < n {
      var front := blocks[..n - 1];
      assert blocks[n - 1].hash != x;
      assert forall j | h <= j < |front| :: front[j] == blocks[j] && blocks[j].hash != x;
      HeightKept(front, h, x);
      assert front[..h] == blocks[..h];
    } else {
      assert blocks[..h] == blocks;
    }
  }

  lemma {:induction false} HeightPresent(blocks: seq<Block>, x: Hash)
    ensures x in PersistAll(blocks).heights <==> HasHash(blocks, 0, x)
  {
    if blocks != [] {
      var n := |blocks|;
      var front, b := blocks[..n - 1], blocks[n - 1];
      HeightPresent(front, x);
      if HasHash(front, 0, x) {
        var j :| 0 <= j < |front| && front[j].hash == x;
        assert blocks[j].hash == x;
      }
      if HasHash(blocks, 0, x) && b.hash != x {
        var j :| 0 <= j < |blocks| && blocks[j].hash == x;
        assert front[j].hash == x;
      }
    }
  }

  lemma PersistLast(blocks: seq<Block>)
    requires blocks != []
    ensures PersistAll(blocks) == Persist(PersistAll(blocks[..|blocks| - 1]), blocks[|blocks| - 1])
  {
    hide Persist;
  }

  /** File and meta of a chain, in closed form. */
  lemma {:induction false} PersistedMeta(blocks: seq<Block>)
    requires Numbered(blocks)
    ensures var c, n := PersistAll(blocks), |blocks|;
            && c.file == blocks && c.meta.height == n && c.meta.interchainTxCount == Counted(blocks)
            && c.storedMeta == (if n == 0 then None else Some(c.meta))
            && c.meta.blockHash == Some(if n == 0 then ZERO_HASH else blocks[n - 1].hash)
  {
    if blocks != [] {
      hide PutMetas, Sum, PersistAll;
      var n := |blocks|;
      PersistLast(blocks);
      PersistedMeta(blocks[..n - 1]);
      assert blocks == blocks[..n - 1] + [blocks[n - 1]];
    }
  }

  /** The tables indexed by height. */
  lemma {:induction false} PersistedKeys(blocks: seq<Block>)
    requires Numbered(blocks)
    ensures PersistAll(blocks).txSets.Keys == PersistAll(blocks).hashes.Keys == Heights(|blocks|)
  {
    if blocks != [] {
      hide PutMetas, Sum, PersistAll;
      var n := |blocks|;
      PersistLast(blocks);
      PersistedKeys(blocks[..n - 1]);
      var c, d := PersistAll(blocks[..n - 1]), PersistAll(blocks);
      assert d.txSets.Keys == c.txSets.Keys + {n} && d.hashes.Keys == c.hashes.Keys + {n};
    }
  }

  lemma {:induction false} PersistedSet(blocks: seq<Block>, i: nat)
    requires Numbered(blocks) && 1 <= i <= |blocks|
    ensures i in PersistAll(blocks).txSets && PersistAll(blocks).txSets[i] == blocks[i - 1].txs
  {
    hide PutMetas, Sum, PersistAll;
    var n := |blocks|;
    PersistLast(blocks);
    if i < n {
      PersistedSet(blocks[..n - 1], i);
    }
  }

  lemma PersistedSets(blocks: seq<Block>)
    requires Numbered(blocks)
    ensures PersistAll(blocks).txSets.Keys == PersistAll(blocks).hashes.Keys == Heights(|blocks|)
    ensures forall i: nat | 1 <= i <= |blocks| ::
              i in Heights(|blocks|) && PersistAll(blocks).txSets[i] == blocks[i - 1].txs
  {
    hide PersistAll, Heights;
    PersistedKeys(blocks);
    forall i: nat | 1 <= i <= |blocks|
      ensures i in Heights(|blocks|) && PersistAll(blocks).txSets[i] == blocks[i - 1].txs
    {
      PersistedSet(blocks, i);
    }
  }

  /** The meta points at the transaction it was stored for. */
  predicate PointsAt(blocks: seq<Block>, m: TxMeta, t: Hash) {
    && 1 <= m.height <= |blocks| && blocks[m.height - 1].hash == m.blockHash
    && m.index < |blocks[m.height - 1].txs| && blocks[m.height - 1].txs[m.index] == t
  }

  lemma {:induction false} PutMetasAt(m: map<Hash, TxMeta>, b: Block, n: nat, t: Hash)
    requires n <= |b.txs|
    ensures var r := PutMetas(m, b, n);
            t in b.txs[..n] ==>
            t in r && r[t].height == b.number && r[t].blockHash == b.hash && r[t].index < n && b.txs[r[t].index] == t
  {
    if n > 0 {
      PutMetasAt(m, b, n - 1, t);
      assert b.txs[..n] == b.txs[..n - 1] + [b.txs[n - 1]];
    }
  }

  /** Every stored transaction meta leads to a block and position that hold the transaction. */
  lemma {:induction false} MetaPointsAt(blocks: seq<Block>, t: Hash)
    requires Numbered(blocks) && t in PersistAll(blocks).txMeta
    ensures PointsAt(blocks, PersistAll(blocks).txMeta[t], t)
  {
    hide PersistAll, Sum;
    if blocks == [] {
      EmptyChain();
    } else {
      var n := |blocks|;
      var front, b := blocks[..n - 1], blocks[n - 1];
      PersistLast(blocks);
      assert b.txs[..|b.txs|] == b.txs;
      PutMetasAt(PersistAll(front).txMeta, b, |b.txs|, t);
      PutMetasKeys(PersistAll(front).txMeta, b, |b.txs|, t);
      hide PutMetas;
      if t !in b.txs {
        assert t in PersistAll(front).txMeta;
        MetaPointsAt(front, t);
      }
    }
  }

  /** The meta is that of the last place at which the transaction stands. */
  predicate IsLatest(blocks: seq<Block>, m: TxMeta, t: Hash) {
    && 1 <= m.height <= |blocks| && !HasTx(blocks, m.height, t)
    && var txs := blocks[m.height - 1].txs; forall j | m.index < j < |txs| :: txs[j] != t
  }

  lemma {:induction false} PutMetasLatest(m: map<Hash, TxMeta>, b: Block, n: nat, t: Hash)
    requires n <= |b.txs| && t in b.txs[..n]
    ensures var r := PutMetas(m, b, n);
            t in r && forall j | r[t].index < j < n :: b.txs[j] != t
  {
    assert b.txs[..n] == b.txs[..n - 1] + [b.txs[n - 1]];
    if b.txs[n - 1] != t {
      PutMetasLatest(m, b, n - 1, t);
    }
  }

  /** A transaction that is stored more than once is found at its last place. */
  lemma {:induction false} MetaIsLatest(blocks: seq<Block>, t: Hash)
    requires Numbered(blocks) && t in PersistAll(blocks).txMeta
    ensures IsLatest(blocks, PersistAll(blocks).txMeta[t], t)
  {
    hide PersistAll, Sum, PutMetas;
    if blocks == [] {
      EmptyChain();
    } else {
      var n := |blocks|;
      var front, b := blocks[..n - 1], blocks[n - 1];
      PersistLast(blocks);
      assert b.txs[..|b.txs|] == b.txs;
      PutMetasKeys(PersistAll(front).txMeta, b, |b.txs|, t);
      if t in b.txs {
        PutMetasAt(PersistAll(front).txMeta, b, |b.txs|, t);
        PutMetasLatest(PersistAll(front).txMeta, b, |b.txs|, t);
      } else {
        MetaIsLatest(front, t);
        assert forall j | 0 <= j < n - 1 :: front[j] == blocks[j];
      }
    }
  }

  /** A hash that two blocks share leads to the later one. */
  lemma {:induction false} HeightIsLatest(blocks: seq<Block>, x: Hash)
    requires Numbered(blocks) && x in PersistAll(blocks).heights
    ensures PersistAll(blocks).heights[x] <= |blocks| && !HasHash(blocks, PersistAll(blocks).heights[x], x)
  {
    if blocks == [] {
      EmptyChain();
    } else {
      hide PutMetas, Sum, PersistAll;
      var n := |blocks|;
      var front := blocks[..n - 1];
      PersistLast(blocks);
      if blocks[n - 1].hash != x {
        HeightIsLatest(front, x);
        assert forall j | 0 <= j < n - 1 :: front[j] == blocks[j];
      }
    }
  }

  lemma EmptyChain()
    ensures PersistAll([]) == EMPTY
  {
  }

  /** The tables between hashes and heights lead to the right blocks. */
  lemma {:induction false} HashesPointAt(blocks: seq<Block>)
    requires Numbered(blocks)
    ensures forall x | x in PersistAll(blocks).heights ::
              var h := PersistAll(blocks).heights[x]; 1 <= h <= |blocks| && blocks[h - 1].hash == x
    ensures forall i: nat | i in PersistAll(blocks).hashes ::
              1 <= i <= |blocks| && PersistAll(blocks).hashes[i] == blocks[i - 1].hash
  {
    if blocks == [] {
      EmptyChain();
    } else {
      hide PutMetas, Sum, PersistAll;
      PersistLast(blocks);
      HashesPointAt(blocks[..|blocks| - 1]);
    }
  }

  /** The heights of a chain of `n` blocks. */
  function Heights(n: nat): (hs: set<nat>)
    ensures forall i: nat :: i in hs <==> 1 <= i <= n
  {
    if n == 0 then {} else Heights(n - 1) + {n}
  }

  // ---- rollback ---------------------------------------------------------------------------------

  /** Everything but the table from heights to block hashes, which rollback leaves
      alone, and the block hash of the empty chain, which rollback to zero makes nil. */
  predicate SameChain(c: Chain, d: Chain) {
    && c.file == d.file && c.txMeta == d.txMeta && c.heights == d.heights && c.txSets == d.txSets
    && c.storedMeta == d.storedMeta
    && c.meta.height == d.meta.height && c.meta.interchainTxCount == d.meta.interchainTxCount
    && (c.meta.height > 0 ==> c.meta == d.meta)
  }

  /** Removing the blocks above `h` deletes exactly their transactions and hashes. */
  lemma {:induction false} RemovedTables(c: Chain, stored: map<nat, seq<Hash>>, i: nat, h: nat)
    requires h <= i <= |c.file|
    requires forall j | 1 <= j <= i :: j in stored && stored[j] == c.file[j - 1].txs
    ensures RemoveAbove(c, stored, i, h).Some?
    ensures var r := RemoveAbove(c, stored, i, h).value;
            && (forall t: Hash :: Lookup(r.txMeta, t) == if HasTx(c.file[..i], h, t) then None else Lookup(c.txMeta, t))
            && (forall x: Hash ::
                  Lookup(r.heights, x) == if HasHash(c.file[..i], h, x) then None else Lookup(c.heights, x))
    decreases i
  {
    if i > h {
      var b := c.file[i - 1];
      var d := RemoveBlock(c, i, stored[i]);
      assert d.file[..i - 1] == c.file[..i - 1];
      RemovedTables(d, stored, i - 1, h);
      forall t: Hash
        ensures HasTx(c.file[..i], h, t) <==> t in b.txs || HasTx(c.file[..i - 1], h, t)
      {
        HasTxSplit(c.file[..i], h, t);
        assert c.file[..i][..i - 1] == c.file[..i - 1];
      }
      forall x: Hash
        ensures HasHash(c.file[..i], h, x) <==> x == b.hash || HasHash(c.file[..i - 1], h, x)
      {
        HasHashSplit(c.file[..i], h, x);
        assert c.file[..i][..i - 1] == c.file[..i - 1];
      }
    }
  }

  lemma HasTxSplit(blocks: seq<Block>, h: nat, t: Hash)
    requires h < |blocks|
    ensures HasTx(blocks, h, t) <==> t in blocks[|blocks| - 1].txs || HasTx(blocks[..|blocks| - 1], h, t)
  {
    var front := blocks[..|blocks| - 1];
    assert forall j | h <= j < |front| :: front[j] == blocks[j];
  }

  lemma HasHashSplit(blocks: seq<Block>, h: nat, x: Hash)
    requires h < |blocks|
    ensures HasHash(blocks, h, x) <==> x == blocks[|blocks| - 1].hash || HasHash(blocks[..|blocks| - 1], h, x)
  {
    var front := blocks[..|blocks| - 1];
    assert forall j | h <= j < |front| :: front[j] == blocks[j];
  }

  /** ... and leaves file, transaction sets and counter as the shorter chain had them. */
  lemma {:induction false} RemovedRest(c: Chain, stored: map<nat, seq<Hash>>, i: nat, h: nat)
    requires h <= i && |c.file| == i && c.meta.interchainTxCount == Counted(c.file)
    requires c.txSets.Keys == Heights(i) && Heights(i) <= stored.Keys
    ensures RemoveAbove(c, stored, i, h).Some?
    ensures var r := RemoveAbove(c, stored, i, h).value;
            && r.file == c.file[..h] && r.meta.interchainTxCount == Counted(c.file[..h])
            && r.hashes == c.hashes && r.txSets.Keys == Heights(h)
            && (forall j: nat | j in Heights(h) :: r.txSets[j] == c.txSets[j])
    decreases i
  {
    if i > h {
      hide Without;
      var d := RemoveBlock(c, i, stored[i]);
      assert d.txSets.Keys == Heights(i - 1);
      RemovedRest(d, stored, i - 1, h);
      assert d.file[..h] == c.file[..h];
      assert Heights(h) <= Heights(i - 1);
    } else {
      assert c.file[..h] == c.file;
    }
  }

  /** No block above `h` repeats a transaction or a hash of a block below. */
  predicate NoReuse(blocks: seq<Block>, h: nat)
    requires h <= |blocks|
  {
    && (forall i, t | 0 <= i < h && t in blocks[i].txs :: !HasTx(blocks, h, t))
    && (forall i | 0 <= i < h :: !HasHash(blocks, h, blocks[i].hash))
  }

  /** Rolling `PersistAll(blocks)` back to height `h`, whatever stale hashes earlier
      rollbacks left behind, always succeeds; file, transaction sets and meta are then
      those of the first `h` blocks. */
  lemma RollbackRestoresFile(c: Chain, blocks: seq<Block>, h: nat)
    requires Numbered(blocks) && SameChain(c, PersistAll(blocks)) && h < |blocks|
    ensures Rollback(c, h).1 == RolledBack
    ensures var r, d := Rollback(c, h).0, PersistAll(blocks[..h]);
            && r.file == d.file && r.txSets == d.txSets && r.hashes == c.hashes && r.storedMeta == d.storedMeta
            && r.meta == (if h == 0 then ChainMeta(0, None, 0) else d.meta)
  {
    hide PersistAll, RemoveAbove, Counted, Heights, Numbered;
    ChainFacts(c, blocks);
    NumberedPrefix(blocks, h);
    ChainFacts(PersistAll(blocks[..h]), blocks[..h]);
    RemovedRest(c, c.txSets, |blocks|, h);
    HeightsIn(h, |blocks|);
    SameSets(Rollback(c, h).0.txSets, PersistAll(blocks[..h]).txSets, c.txSets, blocks, h);
    if h > 0 { assert blocks[..h][h - 1].number == h; }
  }

  lemma NumberedPrefix(blocks: seq<Block>, h: nat)
    requires Numbered(blocks) && h <= |blocks|
    ensures Numbered(blocks[..h]) && (h > 0 ==> blocks[..h][h - 1].number == h)
  {
  }

  /** What a chain holds, whatever stale hashes it has. */
  lemma ChainFacts(c: Chain, blocks: seq<Block>)
    requires Numbered(blocks) && SameChain(c, PersistAll(blocks))
    ensures c.file == blocks && c.meta.height == |blocks| && c.meta.interchainTxCount == Counted(blocks)
    ensures c.txSets.Keys == Heights(|blocks|)
    ensures forall i: nat | 1 <= i <= |blocks| :: i in c.txSets && c.txSets[i] == blocks[i - 1].txs
    ensures |blocks| == 0 ==> c.storedMeta.None?
    ensures |blocks| > 0 ==>
            && c.meta == ChainMeta(|blocks|, Some(blocks[|blocks| - 1].hash), Counted(blocks))
            && c.storedMeta == Some(c.meta)
  {
    PersistedMeta(blocks);
    PersistedSets(blocks);
  }

  lemma SameSets(m: map<nat, seq<Hash>>, m': map<nat, seq<Hash>>, old_: map<nat, seq<Hash>>, blocks: seq<Block>, h: nat)
    requires h <= |blocks| && m.Keys == m'.Keys == Heights(h) && Heights(h) <= old_.Keys
    requires forall i: nat | i in Heights(h) :: m[i] == old_[i]
    requires forall i: nat | 1 <= i <= |blocks| :: i in old_ && old_[i] == blocks[i - 1].txs
    requires forall i: nat | 1 <= i <= h :: i in m' && m'[i] == blocks[..h][i - 1].txs
    ensures m == m'
  {
    forall i | i in m
      ensures m[i] == m'[i]
    {
      assert i in Heights(h) && 1 <= i <= h;
    }
  }

  lemma HeightsIn(h: nat, n: nat)
    requires h <= n
    ensures Heights(h) <= Heights(n) && forall i: nat :: i in Heights(h) <==> 1 <= i <= h
  {
  }

  lemma RollbackRemoves(c: Chain, blocks: seq<Block>, h: nat)
    requires Numbered(blocks) && SameChain(c, PersistAll(blocks)) && h < |blocks|
    ensures var r := Rollback(c, h).0;
            && (forall t: Hash :: Lookup(r.txMeta, t) == if HasTx(blocks, h, t) then None else Lookup(c.txMeta, t))
            && (forall x: Hash :: Lookup(r.heights, x) == if HasHash(blocks, h, x) then None else Lookup(c.heights, x))
  {
    hide PersistAll, RemoveAbove, Counted, HasTx, HasHash, Lookup;
    PersistedMeta(blocks);
    PersistedSets(blocks);
    assert c.file[..|blocks|] == blocks;
    RemovedTables(c, c.txSets, |blocks|, h);
    RollbackRestoresFile(c, blocks, h);
  }

  lemma NoReuseMeans(blocks: seq<Block>, h: nat)
    requires h <= |blocks|
    ensures NoReuse(blocks, h) <==>
            && (forall t: Hash :: !(HasTx(blocks, h, t) && HasTx(blocks[..h], 0, t)))
            && (forall x: Hash :: !(HasHash(blocks, h, x) && HasHash(blocks[..h], 0, x)))
  {
    assert forall i | 0 <= i < h :: blocks[..h][i] == blocks[i];
    if NoReuse(blocks, h) {
    } else if i, t :| 0 <= i < h && t in blocks[i].txs && HasTx(blocks, h, t) {
      assert HasTx(blocks[..h], 0, t);
    } else {
      var i :| 0 <= i < h && HasHash(blocks, h, blocks[i].hash);
      assert HasHash(blocks[..h], 0, blocks[i].hash);
    }
  }

  /** `RollbackBlockChain(h)` restores the transaction-meta and block-hash tables
      exactly when no removed block repeats a hash of a kept one. */
  lemma RollbackRestoresIff(c: Chain, blocks: seq<Block>, h: nat)
    requires Numbered(blocks) && SameChain(c, PersistAll(blocks)) && h < |blocks|
    ensures var r, d := Rollback(c, h).0, PersistAll(blocks[..h]);
            r.txMeta == d.txMeta && r.heights == d.heights <==> NoReuse(blocks, h)
  {
    hide PersistAll, Rollback, HasTx, HasHash, NoReuse;
    RollbackRemoves(c, blocks, h);
    NoReuseMeans(blocks, h);
    var r, d := Rollback(c, h).0, PersistAll(blocks[..h]);
    forall t: Hash
      ensures Lookup(r.txMeta, t) == Lookup(d.txMeta, t) <==> !(HasTx(blocks, h, t) && HasTx(blocks[..h], 0, t))
    {
      MetaPresent(blocks[..h], t);
      if !HasTx(blocks, h, t) { MetaKept(blocks, h, t); }
    }
    forall x: Hash
      ensures Lookup(r.heights, x) == Lookup(d.heights, x) <==> !(HasHash(blocks, h, x) && HasHash(blocks[..h], 0, x))
    {
      HeightPresent(blocks[..h], x);
      if !HasHash(blocks, h, x) { HeightKept(blocks, h, x); }
    }
    SameLookup(r.txMeta, d.txMeta);
    SameLookup(r.heights, d.heights);
  }

  // ---- runs ------------------------------------------------------------------------------------------

  datatype Event = Persisted(block: Block) | RolledTo(height: nat)

  /** A run of the chain ledger next to the list of blocks it should stand for. */
  function RunChain(c: Chain, events: seq<Event>): Chain
    decreases |events|
  {
    if events == [] then c
    else RunChain(match events[0] case Persisted(b) => Persist(c, b) case RolledTo(h) => Rollback(c, h).0, events[1..])
  }

  function RunBlocks(blocks: seq<Block>, events: seq<Event>): seq<Block>
    decreases |events|
  {
    if events == [] then blocks
    else RunBlocks(match events[0]
                   case Persisted(b) => blocks + [b]
                   case RolledTo(h) => if h < |blocks| then blocks[..h] else blocks, events[1..])
  }

  /** Blocks come in order and no rollback removes a hash that a kept block also has. */
  predicate LegalEvents(blocks: seq<Block>, events: seq<Event>)
    decreases |events|
  {
    events == [] ||
    match events[0]
    case Persisted(b) => b.number == |blocks| + 1 && LegalEvents(blocks + [b], events[1..])
    case RolledTo(h) =>
      if h < |blocks| then NoReuse(blocks, h) && LegalEvents(blocks[..h], events[1..])
      else LegalEvents(blocks, events[1..])
  }

  lemma PersistSame(c: Chain, blocks: seq<Block>, b: Block)
    requires SameChain(c, PersistAll(blocks))
    ensures SameChain(Persist(c, b), PersistAll(blocks + [b]))
  {
    hide PersistAll, PutMetas, Sum;
    assert (blocks + [b])[..|blocks|] == blocks;
    PersistLast(blocks + [b]);
  }

  lemma RollbackSame(c: Chain, blocks: seq<Block>, h: nat)
    requires Numbered(blocks) && SameChain(c, PersistAll(blocks)) && h < |blocks| && NoReuse(blocks, h)
    ensures SameChain(Rollback(c, h).0, PersistAll(blocks[..h]))
  {
    hide PersistAll, Rollback, NoReuse;
    RollbackRestoresFile(c, blocks, h);
    RollbackRestoresIff(c, blocks, h);
    PersistedMeta(blocks[..h]);
  }

  /** Over every such run the ledger is the chain of the blocks that remain; in
      particular its interchain count is the sum of the stored counters. */
  lemma {:induction false} RunSame(c: Chain, blocks: seq<Block>, events: seq<Event>)
    requires Numbered(blocks) && SameChain(c, PersistAll(blocks)) && LegalEvents(blocks, events)
    ensures Numbered(RunBlocks(blocks, events))
    ensures SameChain(RunChain(c, events), PersistAll(RunBlocks(blocks, events)))
    ensures RunChain(c, events).meta.interchainTxCount == Counted(RunBlocks(blocks, events))
    decreases |events|
  {
    hide PersistAll, Rollback, Persist, SameChain;
    if events == [] {
      SameCount(c, blocks);
    } else {
      match events[0]
      case Persisted(b) =>
        PersistSame(c, blocks, b);
        RunSame(Persist(c, b), blocks + [b], events[1..]);
      case RolledTo(h) =>
        if h < |blocks| {
          RollbackSame(c, blocks, h);
          RunSame(Rollback(c, h).0, blocks[..h], events[1..]);
        } else {
          RollbackNothing(c, blocks, h);
          RunSame(c, blocks, events[1..]);
        }
    }
  }

  /** The entries of the table from heights to hashes that lead to the right block. */
  predicate HashesOk(hashes: map<nat, Hash>, blocks: seq<Block>) {
    forall i: nat | 1 <= i <= |blocks| :: i in hashes && hashes[i] == blocks[i - 1].hash
  }

  /** A rollback leaves that table as it was: up to the new height it stays right, and
      every height above it still leads to a hash, which no longer leads to a height. */
  lemma LeftoverHashes(c: Chain, blocks: seq<Block>, h: nat)
    requires Numbered(blocks) && SameChain(c, PersistAll(blocks)) && HashesOk(c.hashes, blocks) && h < |blocks|
    ensures var r := Rollback(c, h).0;
            && HashesOk(r.hashes, blocks[..h])
            && (forall i: nat | h < i <= |blocks| :: i in r.hashes && r.hashes[i] !in r.heights)
  {
    hide PersistAll, Rollback, HasTx;
    RollbackRestoresFile(c, blocks, h);
    RollbackRemoves(c, blocks, h);
    var r := Rollback(c, h).0;
    forall i: nat | h < i <= |blocks|
      ensures i in r.hashes && r.hashes[i] !in r.heights
    {
      assert blocks[i - 1].hash == r.hashes[i];
      assert HasHash(blocks, h, r.hashes[i]);
    }
  }

  /** Over every run the heights of the chain lead to the hashes of its blocks. */
  lemma {:induction false} RunHashes(c: Chain, blocks: seq<Block>, events: seq<Event>)
    requires Numbered(blocks) && SameChain(c, PersistAll(blocks)) && LegalEvents(blocks, events)
    requires HashesOk(c.hashes, blocks)
    ensures HashesOk(RunChain(c, events).hashes, RunBlocks(blocks, events))
    decreases |events|
  {
    hide PersistAll, Rollback, SameChain, PutMetas, Sum;
    if events != [] {
      match events[0]
      case Persisted(b) =>
        PersistSame(c, blocks, b);
        RunHashes(Persist(c, b), blocks + [b], events[1..]);
      case RolledTo(h) =>
        if h < |blocks| {
          RollbackSame(c, blocks, h);
          LeftoverHashes(c, blocks, h);
          RunHashes(Rollback(c, h).0, blocks[..h], events[1..]);
        } else {
          RollbackNothing(c, blocks, h);
          RunHashes(c, blocks, events[1..]);
        }
    }
  }

  lemma SameCount(c: Chain, blocks: seq<Block>)
    requires Numbered(blocks) && SameChain(c, PersistAll(blocks))
    ensures c.meta.interchainTxCount == Counted(blocks)
  {
    PersistedMeta(blocks);
  }

  lemma RollbackNothing(c: Chain, blocks: seq<Block>, h: nat)
    requires Numbered(blocks) && SameChain(c, PersistAll(blocks)) && h >= |blocks|
    ensures Rollback(c, h) == (c, if h == |blocks| then RolledBack else ToHigherNumber)
  {
    PersistedMeta(blocks);
  }
}
