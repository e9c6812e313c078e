/** The chain ledger as an object: `PersistExecutionResult` and `RollbackBlockChain` with
    their loops, where the block file is truncated at once and the tables by one batch. */
module ChainStore {
  import opened GoBytes
  import C = ChainLedger

  /** The loop over the interchain counters. */
  method CountInterchain(counters: seq<nat>) returns (count: nat)
    ensures count == C.Sum(counters)
  {
    count := 0;
    for i := 0 to |counters|
      invariant count == C.Sum(counters[..i])
    {
      assert counters[..i + 1][..i] == counters[..i];
      count := count + counters[i];
    }
    assert counters[..|counters|] == counters;
  }

  /** `prepareTransactions`. */
  method PrepareTransactions(m: map<C.Hash, C.TxMeta>, b: C.Block) returns (r: map<C.Hash, C.TxMeta>)
    ensures r == C.PutMetas(m, b, |b.txs|)
  {
    r := m;
    for i := 0 to |b.txs|
      invariant r == C.PutMetas(m, b, i)
    {
      r := r[b.txs[i] := C.TxMeta(b.number, b.hash, i)];
    }
  }

  method DeleteMetas(m: map<C.Hash, C.TxMeta>, txs: seq<C.Hash>) returns (r: map<C.Hash, C.TxMeta>)
    ensures r == C.Without(m, txs)
  {
    r := m;
    for i := 0 to |txs|
      invariant r == C.Without(m, txs[..i])
    {
      assert txs[..i + 1] == txs[..i] + [txs[i]];
      r := r - {txs[i]};
    }
    assert txs[..|txs|] == txs;
  }

  class ChainLedgerImpl {
    var file: seq<C.Block>
    var txMeta: map<C.Hash, C.TxMeta>
    var heights: map<C.Hash, nat>
    var hashes: map<nat, C.Hash>
    var txSets: map<nat, seq<C.Hash>>
    var storedMeta: Option<C.ChainMeta>
    var meta: C.ChainMeta

    constructor ()
      ensures State() == C.EMPTY
    {
      file, txMeta, heights, hashes, txSets, storedMeta := [], map[], map[], map[], map[], None;
      meta := C.ChainMeta(0, Some(C.ZERO_HASH), 0);
    }

    /** `loadChainMeta` on what a stopped node left behind. */
    constructor Load(disk: C.Chain)
      ensures State() == disk.(meta := if disk.storedMeta.Some? then disk.storedMeta.value else C.EMPTY.meta)
    {
      file, txMeta, heights, hashes := disk.file, disk.txMeta, disk.heights, disk.hashes;
      txSets, storedMeta := disk.txSets, disk.storedMeta;
      meta := if disk.storedMeta.Some? then disk.storedMeta.value else C.EMPTY.meta;
    }

    function State(): C.Chain
      reads this
    {
      C.Chain(file, txMeta, heights, hashes, txSets, storedMeta, meta)
    }

    method PersistExecutionResult(b: C.Block)
      modifies this
      ensures State() == C.Persist(old(State()), b)
    {
      txMeta := PrepareTransactions(txMeta, b);
      txSets := txSets[b.number := b.txs];
      heights := heights[b.hash := b.number];
      hashes := hashes[b.number := b.hash];
      var count := CountInterchain(b.counters);
      meta := C.ChainMeta(b.number, Some(b.hash), count + meta.interchainTxCount);
      storedMeta := Some(meta);
      file := file + [b];
    }

    /** The chain that the batch would leave. */
    function Pending(batch: C.Chain): C.Chain
      reads this
    {
      batch.(file := file)
    }

    /** `removeChainDataOnBlock`: the file is cut now, the tables when the batch commits. */
    method RemoveChainDataOnBlock(batch: C.Chain, i: nat) returns (r: C.Chain)
      requires 1 <= i <= |file| && i in txSets
      modifies this`file
      ensures Pending(r) == C.RemoveBlock(old(Pending(batch)), i, txSets[i]) && file == old(file)[..i - 1]
    {
      var b := file[i - 1];
      file := file[..i - 1];
      var metas := DeleteMetas(batch.txMeta, txSets[i]);
      var count := CountInterchain(b.counters);
      r := batch.(txSets := batch.txSets - {i}, heights := batch.heights - {b.hash}, txMeta := metas,
                  meta := batch.meta.(interchainTxCount := C.Minus(batch.meta.interchainTxCount, count)));
    }

    method RollbackBlockChain(height: nat) returns (result: C.RollbackResult)
      modifies this
      ensures result == C.Rollback(old(State()), height).1
      ensures result != C.Unreadable ==> State() == C.Rollback(old(State()), height).0
      ensures result == C.Unreadable ==> file <= old(file) && State() == old(State()).(file := file)
      ensures result == C.Unreadable && |old(file)| < old(meta).height ==> State() == old(State())
    {
      hide C.RemoveBlock;
      if meta.height < height {
        return C.ToHigherNumber;
      }
      if meta.height == height {
        return C.RolledBack;
      }
      var batch := State();
      var i := meta.height;
      while i > height
        invariant height <= i
        invariant txSets == old(txSets) && hashes == old(hashes) && meta == old(meta)
        invariant txMeta == old(txMeta) && heights == old(heights) && storedMeta == old(storedMeta)
        invariant file <= old(file) && (i == meta.height ==> file == old(file))
        invariant i < meta.height ==> meta.height <= |old(file)|
        invariant batch.hashes == hashes
        invariant C.RemoveAbove(Pending(batch), txSets, i, height) ==
                  C.RemoveAbove(old(State()), old(txSets), old(meta).height, height)
      {
        if !(1 <= i <= |file| && i in txSets) {
          return C.Unreadable;
        }
        KeepsHashes(Pending(batch), i, txSets[i]);
        batch := RemoveChainDataOnBlock(batch, i);
        i := i - 1;
      }
      if height == 0 {
        meta, storedMeta := C.ChainMeta(0, None, 0), None;
      } else {
        if !(height <= |file| && height in txSets) {
          return C.Unreadable;
        }
        var b := file[height - 1];
        meta := C.ChainMeta(b.number, Some(b.hash), batch.meta.interchainTxCount);
        storedMeta := Some(meta);
      }
      txMeta, heights, txSets := batch.txMeta, batch.heights, batch.txSets;
      return C.RolledBack;
    }
  }

  lemma KeepsHashes(c: C.Chain, i: nat, txs: seq<C.Hash>)
    requires 1 <= i <= |c.file|
    ensures C.RemoveBlock(c, i, txs).hashes == c.hashes
  {
  }
}
