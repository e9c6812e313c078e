/** The ledger of ledger.go as an object over its two halves. */
module LedgerObject {
  import opened GoBytes
  import opened LedgerModel
  import opened BlockJournal
  import C = ChainLedger
  import StateStore
  import Recovery
  import ChainStore
  import JournalStore

  class Ledger {
    const chainLedger: ChainStore.ChainLedgerImpl
    const stateLedger: JournalStore.Journals

    constructor (chainLedger: ChainStore.ChainLedgerImpl, stateLedger: JournalStore.Journals)
      ensures this.chainLedger == chainLedger && this.stateLedger == stateLedger
    {
      this.chainLedger, this.stateLedger := chainLedger, stateLedger;
    }

    /** Both halves get the block; the order in which they finish does not matter. */
    method PersistBlockData(
        block: C.Block, accs: map<Address, Account>, journal: StateStore.BlockRecord, chainFirst: bool)
      requires stateLedger.prevJnlHash == journal.changedHash
      modifies chainLedger, stateLedger
      ensures stateLedger.State() == StateStore.Commit(old(stateLedger.State()), block.number, accs, journal)
      ensures chainLedger.State() == C.Persist(old(chainLedger.State()), block)
    {
      if chainFirst {
        chainLedger.PersistExecutionResult(block);
        stateLedger.Commit(block.number, accs, journal);
      } else {
        stateLedger.Commit(block.number, accs, journal);
        chainLedger.PersistExecutionResult(block);
      }
    }

    /** The state goes back first, and the chain only if that succeeded. */
    method Rollback(height: nat) returns (ok: bool)
      modifies chainLedger, stateLedger
      ensures var (state, r) := StateStore.Rollback(old(stateLedger.State()), height);
              var (chain, q) := C.Rollback(old(chainLedger.State()), height);
              && (ok <==> r == StateStore.RolledBack && q == C.RolledBack)
              && stateLedger.State() == state
              && (ok ==> chainLedger.State() == chain)
    {
      var r := stateLedger.RollbackState(height);
      if r != StateStore.RolledBack {
        return false;
      }
      var q := chainLedger.RollbackBlockChain(height);
      return q == C.RolledBack;
    }
  }

  /** `New` on the disks of a stopped node. */
  method New(disk: StateStore.Disk, chain: C.Chain) returns (ledger: Ledger?)
    ensures ledger != null <==> Recovery.New(disk, chain).Opened?
    ensures ledger != null ==>
            Recovery.New(disk, chain) == Recovery.Opened(ledger.stateLedger.State(), ledger.chainLedger.State())
  {
    var chainLedger := new ChainStore.ChainLedgerImpl.Load(chain);
    var stateLedger := new JournalStore.Journals(disk);
    ledger := new Ledger(chainLedger, stateLedger);
    var ok := ledger.Rollback(chainLedger.meta.height);
    if !ok {
      ledger := null;
    }
  }
}
