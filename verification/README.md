# BitXHub in Dafny

A model of the parts of BitXHub that hold its state and decide its votes, with proofs of
what they promise. The state ledger comes first: account overlays, undo log, cache, block
journals, rollback and recovery. Around it stand the executor's fees, the interchain
counters, governance proposals and admin roles, and some smaller algorithms (timeout lists,
signer sampling, proof groups, prefix ranges).

`dafny verify dfyconfig.toml` verifies the whole project.

## How it is laid out

Each part has a value model (functions on immutable states, where the theorems live) and,
where the program works by updating objects, classes whose methods are proved to compute
the functions of the value model.

| part | value model and theorems | objects and loops |
|---|---|---|
| state ledger | `LedgerModel`, `LedgerView`, `LedgerSteps`, `LedgerUndo`, `FlatLedger`, `UndoExact` | `SimpleLedger` |
| parallel transactions | `ParallelUndo`, `ParallelExecutor` | |
| blocks, cache, journals | `BlockJournal`, `StateStore`, `BlockLedger`, `NodeLedger`, `StateRoot` | `AccountCache`, `JournalStore`, `StateRoot` |
| chain ledger and recovery | `ChainLedger`, `Recovery` | `ChainStore`, `LedgerObject` |
| executor | `Executor`, `TimeoutList`, `ProofGroups` | `ExecutorObject`, `TimeoutList`, `ProofGroups` |
| contracts | `Strategy`, `Voting`, `Governance`, `RoleLifecycle`, `Interchain` | `GovernanceContracts`, `Interchain` |
| helpers | `GoBytes`, `GoStrings`, `BytesPrefix`, `Sampling` | `BytesPrefix`, `Sampling` |

## Where the code does less than one would expect

Each point is a theorem of the form "holds if and only if", or comes with a concrete case.

- An account keeps the undo log it was loaded with, and the end of a transaction gives the
  ledger a new one. From then on the account is stale: its changes are logged where no revert
  looks. A revert shows the state at the snapshot, except that stale accounts keep what they
  show now and unlogged writes stay (`UndoExact.RevertShows`). So `RevertToSnapshot` undoes
  every transaction that logs its changes exactly when no live account is stale
  (`UndoExact.UndoIffNoStale`), and a fee failure is atomic under the same condition
  (`Executor.AtomicIffNoStale`). The class `SimpleLedger` derives staleness from reference
  inequality.
- A transfer between two accounts that cannot pay its fee creates or destroys value exactly when it moved
  and one of sender and recipient is stale but not the other (`Executor.TransferTotal`, with a
  ledger on which ten units appear in `Executor.ValueAppears`). `transfer` to oneself changes
  the sum of all balances (`Executor.TransferConservesIff`).
- `AddState` is not logged (`UndoExact.UnloggedUndoneIff`), and on a key that has a stored value
  which the account has not read it leaves the journal without the previous value
  (`LedgerSteps.AddStateStep`). Setting nil code has no effect where code is stored
  (`UndoExact.SetCodeVisibleIff`). A value that differs from the stored one only as empty from
  nil is not committed (`BlockJournal.WriteCommittedIff`).
- Nothing separates keys from values in what a state hash covers: two different writes can
  share it (`StateRoot.KeysRunTogether`). Keys and value lengths being equal, it determines the
  values (`StateRoot.StateDetermines`).
- A crash that leaves the chain's batch ahead of the state ledger cannot be recovered, nor can
  one in the middle of a rollback (`Recovery.CrashWhilePersisting`,
  `Recovery.CrashWhileRollingBack`). A crash between the block file and the chain's batch goes
  unnoticed: the node comes up with a chain that is sound exactly if both were written or
  neither was. A file that is behind makes every later rollback fail (`Recovery.FileBehind`);
  one that is ahead is cut back by the next rollback (`Recovery.FileAhead`).
- More than eleven journals are stored exactly when a commit on a full window stops between
  its two batches (`Recovery.SpanIff`).
- Rolling the chain back restores it exactly when no removed block shares a hash with a kept
  one (`ChainLedger.RollbackRestoresIff`). The table from heights to block hashes is never
  cleaned (`ChainLedger.LeftoverHashes`), and the block hash of height 0 becomes nil
  (`ChainLedger.RollbackRestoresFile`).
- `removeFromStr` skips the entry after a match and can index past the end
  (`TimeoutList.RemovalCorrectIff`, and for several ids `TimeoutList.RemovedCorrectIff`).
- Closing a vote early is sound exactly when more approvals never hurt at the end and what
  holds early lasts (`Strategy.EarlyCloseSoundIff`). A strategy that weighs rejections breaks
  the second half and can close on the first vote (`Strategy.RejectsMatter`).
- Withdrawing a paused proposal always succeeds and moves a role out from under its pending
  logout (`RoleLifecycle.WithdrawKeepsIff`, with a run from genesis in
  `RoleLifecycle.PausedFromGenesis`).
- `LogoutRole` asks whether the role is available after it has become logouting, so the
  electorate never shrinks there, although the comment above it says so
  (`RoleLifecycle.LogoutAsksTooLate`). The model follows the code.

## Assumptions

- Hashing is free of collisions. JSON and protobuf encodings are the identity. Addresses
  stand for their string form, and the address of a proposal's sender holds no dash.
- `InnerAccountChanged` and `CopyOrNewIfEmpty` come from a library that is not part of this
  model. They are read as "there is a dirty record and it differs from the origin" and "a copy,
  or a zero record".
- Contract stores are values of their own, apart from the state ledger. Where roles and
  proposals agree, a failing call of `GovernanceContracts` has written nothing, except that
  `RegisterRole` leaves the unavailable role when its proposal is refused for want of a
  threshold; the run theorems hold whether or not the executor undoes that. A rejected
  interchain message has written nothing either. What a later fee failure does to the writes of
  a call that succeeded is not covered there: proposals and interchain records go through the
  unlogged `AddObject` (pkg/vm/boltvm/bolt_stub.go:93-113), and `Executor.FailureShows` says
  what the state ledger then keeps.
- `Begin` and `Report` of the transaction manager are abstract. `Report` succeeds only for a
  request that was begun.
- A strategy expression is an arbitrary partial function of approvals, rejections and
  electorate. A result that is not a truth value counts as an error.
- Nil and empty values are kept apart (`None` and `Some([])`). Whole-run theorems are about
  writes of nil or non-empty values, on which `bytes.Equal` is equality.

## Model

| member | source | states |
|---|---|---|
| `FlatLedger.StepRefines` | internal/ledger/state_accessor.go:20-202 | each read, write, snapshot, revert and end of transaction of the layered ledger is one step of a flat map that copies itself at every snapshot; a revert puts the copy back everywhere but at the accounts that were stale, and an unlogged write reaches the copies that no log entry guards |
| `FlatLedger.RunRefines` | internal/ledger/state_accessor.go:20-216 | over every run of those calls, whichever accounts are stale, balances, nonces, codes, state keys, refund, logs, preimages and access list read as in the flat map |
| `FlatLedger.RevertRefines` | internal/ledger/state_accessor.go:448-459 | reverting to a known revision never meets an account that is gone and gives the copy taken at its snapshot with the stale accounts as they are, for any nesting |
| `FlatLedger.PlainRevert` | internal/ledger/state_accessor.go:448-459 | with no stale account it gives the copy itself |
| `LedgerSteps.TouchStep` | internal/ledger/state_accessor.go:20-33 | loading or creating an account changes nothing that can be observed and can be undone |
| `LedgerSteps.ReadStateStep` | internal/ledger/account.go:52-71 | a read returns the flat value and only fills the origin overlay |
| `LedgerSteps.SetStateStep` | internal/ledger/account.go:96-113 | a write changes one flat cell, keeps all layers coherent, and undoing its entry restores every older view |
| `LedgerSteps.SetCodeStep` | internal/ledger/account.go:135-146 | for every code, nil and empty included, what is seen afterwards; the layers stay coherent if and only if the code is non-empty, or nil over nil, and then undoing the entry restores every older view |
| `LedgerSteps.SetBalanceStep` | internal/ledger/account.go:237-246 | the same for balances |
| `LedgerSteps.SetNonceStep` | internal/ledger/account.go:196-205 | the same for nonces |
| `LedgerSteps.AddStateStep` | internal/ledger/account.go:130-132 | an unlogged write changes one flat cell, and keeps the layers coherent if and only if the account has read the stored value or nothing is stored |
| `LedgerSteps.BumpCounts` | internal/ledger/state_changer.go:36-44 | appending keeps the dirty counts equal to the live log entries per address |
| `LedgerSteps.UnbumpCounts` | internal/ledger/state_changer.go:46-61 | undoing an entry keeps them equal, and drops an address at zero |
| `LedgerUndo.RevertChangeView` | internal/ledger/state_changer.go:115-207 | undoing one entry takes back exactly what it recorded, for every kind of entry |
| `LedgerUndo.RevertToStep` | internal/ledger/state_changer.go:46-61 | the backward loop gives the unwound flat state and a coherent ledger |
| `LedgerUndo.RevertToSnapshotStep` | internal/ledger/state_accessor.go:448-459 | after a revert ids stay strictly increasing, log indices non-decreasing, and older snapshots stay usable |
| `LedgerUndo.RevertToSnapshotUnwind` | internal/ledger/state_accessor.go:448-459 | reverting to a newer snapshot does not change what an older one restores |
| `UndoExact.UndoIffNoStale` | internal/ledger/state_accessor.go:448-504 | reverts undo every transaction that logs its changes, started in a state, if and only if no live account holds another log than the ledger's |
| `UndoExact.RevertShows` | internal/ledger/state_accessor.go:448-459 | after any calls since a snapshot the revert goes through and shows the state at the snapshot, except at stale accounts and unguarded unlogged writes |
| `UndoExact.StaleNotUndone` | internal/ledger/account.go:237-246 | a write to a stale account survives the revert |
| `UndoExact.EndTxNoStale` | internal/ledger/state_accessor.go:497-504 | exactly when the end of a transaction leaves no stale account |
| `UndoExact.SecondTxNotUndone` | internal/ledger/state_accessor.go:497-504 | after a transaction that logged a change and left an account live, the next one cannot be undone |
| `UndoExact.UnloggedUndoneIff` | internal/ledger/account.go:130-132 | exactly when a revert takes back an unlogged write |
| `UndoExact.SetCodeVisibleIff` | internal/ledger/account.go:135-183 | exactly when setting code takes effect |
| `ParallelUndo.RevertRemoves` | internal/ledger/state_accessor.go:461-495 | under any interleaving of reads, storage writes, payments, snapshots, reverts and releases by transactions with disjoint cells, reverting one gives the ledger of the same interleaving without its calls, and the instances of the others unchanged |
| `ParallelUndo.OtherStep` | internal/ledger/account.go:96-113 | a step of another transaction happens alike with and without the reverted one |
| `ParallelUndo.RunCounts` | internal/ledger/state_changer.go:36-65 | in every state that an interleaving reaches, every change instance counts its live entries per address |
| `ParallelUndo.CountedFromStart` | internal/ledger/state_accessor.go:461-495 | so it is from any ledger on which no transaction has an instance yet |
| `ParallelUndo.ReleasedIsNew` | internal/ledger/state_accessor.go:461-469 | an instance is given back as new |
| `ParallelExecutor.UnpaidRemoved` | internal/executor/handle.go:476-535 | however it interleaves, a parallel cross-chain transaction that cannot pay leaves what the interleaving leaves without it, with the sender's balance there shared out and the nonce moved on |
| `ParallelExecutor.PaidSeen` | internal/executor/handle.go:476-535 | one that can pay keeps its writes; every account shows exactly what the fee takes from it and what its listings as an admin give it, and the nonce moves on |
| `BlockJournal.RevertUndoesCommit` | internal/ledger/block_journal.go:31-59 | reverting a block's journal entries, in any order, gives back the tables before its commit |
| `BlockJournal.RevertUndoesCommitIff` | internal/ledger/block_journal.go:31-59 | it does so if and only if the recorded origins are what the tables held |
| `BlockJournal.WriteCommittedIff` | internal/ledger/state_accessor.go:300-317 | exactly which writes reach the tables |
| `StateStore.CommitOk` | internal/ledger/state_accessor.go:265-353 | a commit adds one block of history, keeps the journals exactly those of the stored range, and leaves at most eleven |
| `StateStore.CommitWindow` | internal/ledger/state_accessor.go:319-349 | after a commit a rollback reaches exactly ten heights back from the new one, as far as it did before, and the empty state up to height eleven |
| `StateStore.RollbackRestores` | internal/ledger/state_accessor.go:363-410 | rollback succeeds exactly on heights in the window, and then the tables are those right after that block; otherwise nothing changes |
| `StateStore.RollbackWindow` | internal/ledger/state_accessor.go:363-410 | after a rollback exactly the heights below that were reachable |
| `StateStore.OpenOk` | internal/ledger/simple_ledger.go:73-115 | opening the store after a stop finds range, hash and history as they were |
| `BlockLedger.FlushOrigins` | internal/ledger/account.go:303-372 | the origins that a flush records are what the tables hold |
| `BlockLedger.JournalExact` | internal/ledger/account.go:303-339 | the journal of an account says, part by part, exactly what the commit changes in the tables, with what they held |
| `BlockLedger.FlushedIff` | internal/ledger/state_accessor.go:219-237 | an account is flushed if and only if the commit changes something of it |
| `BlockLedger.FlushView` | internal/ledger/state_accessor.go:219-262 | a flush leaves every observable as it was, now held by the cache |
| `BlockLedger.FlushFits` | internal/ledger/account_cache.go:48-89 | after a flush the cache holds what the commit will store, and covers all that is still to be stored; a cached nil hides the stored value |
| `NodeLedger.EveryRunRefines` | internal/ledger/state_accessor.go:20-504 | from an empty node, over every run of ledger calls, flushes, commits, cache evictions, rollbacks and crashes with the restart after them, reads equal a flat map that remembers each block; a rollback to a height or a restart at it shows that block again |
| `NodeLedger.CommitStep` | internal/ledger/state_accessor.go:265-353 | committing moves the flushed block to the tables without changing what is read |
| `NodeLedger.EvictStep` | internal/ledger/account_cache.go:95-125 | evicting cache entries with nothing pending changes nothing that is read |
| `NodeLedger.EvictedExactly` | internal/ledger/account_cache.go:95-125 | an eviction takes out the entries it names and no others |
| `NodeLedger.RollbackStep` | internal/ledger/state_accessor.go:363-410 | rollback clears cache and accounts and shows the chosen block |
| `NodeLedger.CrashStep` | internal/ledger/ledger.go:36-86 | a crash at any time, between any two batches of a commit or rollback, and the restart after it show what was flushed for the height the node comes up at |
| `StateRoot.FlushDirtyData` | internal/ledger/state_accessor.go:219-262 | whatever the enumeration order, the same dirty accounts and the same root, with the journals of those accounts in some order |
| `StateRoot.StateJournal` | internal/ledger/account.go:341-372 | previous values of exactly the changed keys, and a hash over their canonical order |
| `StateRoot.JournalIfModified` | internal/ledger/account.go:303-388 | a journal exactly for modified accounts, and the bytes hashed for one |
| `StateRoot.SortStrings` | internal/ledger/state_accessor.go:240-244 | sorting distinct keys gives the one ascending order of their set |
| `StateRoot.OneOrder` | internal/ledger/state_accessor.go:240-244 | two ascending lists of the same keys are equal |
| `StateRoot.RootDependsOnlyOn` | internal/ledger/state_accessor.go:219-262 | the root depends only on dirty records, changed keys with their new values, and the previous root |
| `StateRoot.RootCovers` | internal/ledger/state_accessor.go:219-262 | address, record and state hash of every dirty account, in that hash every changed key with its new value, and the previous root are part of what is hashed |
| `StateRoot.DataDetermines` | internal/ledger/account.go:374-388 | the bytes of an account determine its encoded record and the hash over its changed keys |
| `StateRoot.RootSeesAccount` | internal/ledger/state_accessor.go:219-262 | two blocks that differ in one account have one root if and only if that account has the same record and the same state hash, or the hash collides |
| `StateRoot.RootDetermines` | internal/ledger/state_accessor.go:219-262 | with delimited records, equal roots mean the same dirty accounts with the same records and state hashes on the same previous root, and conversely, or the hash collides |
| `StateRoot.StateDetermines` | internal/ledger/account.go:362-369 | for the same changed keys and value lengths the hashed bytes determine the new values |
| `StateRoot.KeysRunTogether` | internal/ledger/account.go:362-369 | two different writes with the same state hash, since nothing separates keys from values |
| `SimpleLedger.StateChanger.Append` | internal/ledger/state_changer.go:36-44 | the entry is appended and its address counted |
| `SimpleLedger.StateChanger.Release` | internal/ledger/state_changer.go:46-61 | the count of an undone entry goes down, and its address goes at zero |
| `SimpleLedger.SimpleAccount.GetState` | internal/ledger/account.go:52-71 | dirty, origin, cache and store in that order, remembering what was read |
| `SimpleLedger.SimpleAccount.SetState` | internal/ledger/account.go:96-113 | the overlay and the account's own log change together |
| `SimpleLedger.SimpleAccount.AddState` | internal/ledger/account.go:130-132 | only the dirty overlay changes |
| `SimpleLedger.SimpleAccount.Code` | internal/ledger/account.go:158-183 | the code seen, loaded at most once |
| `SimpleLedger.SimpleAccount.SetCodeAndHash` | internal/ledger/account.go:135-146 | code and hash change together, logged with the old code |
| `SimpleLedger.SimpleAccount.RestoreCode` | internal/ledger/account.go:148-155 | the unlogged form used by undo |
| `SimpleLedger.SimpleAccount.SetNonce` | internal/ledger/account.go:196-205 | logged change of the copied record |
| `SimpleLedger.SimpleAccount.SetBalance` | internal/ledger/account.go:237-246 | logged change of the copied record |
| `SimpleLedger.SimpleLedger.Find` | internal/ledger/state_accessor.go:36-77 | an account object exactly when cache or store has one, with its code |
| `SimpleLedger.SimpleLedger.GetOrCreateAccount` | internal/ledger/state_accessor.go:20-33 | the new object holds the ledger's log, and a creation is logged |
| `SimpleLedger.SimpleLedger.SetBalance` | internal/ledger/state_accessor.go:93-96 | one step of the value model, on objects |
| `SimpleLedger.SimpleLedger.SetNonce` | internal/ledger/state_accessor.go:199-202 | one step of the value model, on objects |
| `SimpleLedger.SimpleLedger.SetCode` | internal/ledger/state_accessor.go:137-140 | one step of the value model, on objects |
| `SimpleLedger.SimpleLedger.SetState` | internal/ledger/state_accessor.go:125-128 | one step of the value model, on objects |
| `SimpleLedger.SimpleLedger.AddState` | internal/ledger/state_accessor.go:131-134 | one step of the value model, on objects |
| `SimpleLedger.SimpleLedger.GetState` | internal/ledger/state_accessor.go:111-114 | the value seen, and one step of the value model |
| `SimpleLedger.SimpleLedger.GetCode` | internal/ledger/state_accessor.go:143-146 | the code seen, and one step of the value model |
| `SimpleLedger.SimpleLedger.AddRefund` | internal/ledger/state_accessor.go:166-172 | logged, and wrapping at 64 bits |
| `SimpleLedger.SimpleLedger.SubRefund` | internal/ledger/state_accessor.go:174-183 | logged, where it does not panic |
| `SimpleLedger.SimpleLedger.AddPreimage` | internal/ledger/state_accessor.go:551-558 | the first preimage of a hash is kept and logged |
| `SimpleLedger.SimpleLedger.AddLog` | internal/ledger/state_accessor.go:566-575 | the log goes to the current transaction |
| `SimpleLedger.SimpleLedger.AddAddressToAccessList` | internal/ledger/state_accessor.go:506-510 | logged only when new |
| `SimpleLedger.SimpleLedger.AddSlotToAccessList` | internal/ledger/state_accessor.go:512-523 | address and slot, each logged only when new |
| `SimpleLedger.SimpleLedger.Snapshot` | internal/ledger/state_accessor.go:441-446 | a new id at the current length of the log |
| `SimpleLedger.SimpleLedger.Search` | internal/ledger/state_accessor.go:449-451 | the binary search gives the first revision whose id is not below |
| `SimpleLedger.SimpleLedger.RevertChange` | internal/ledger/state_changer.go:115-207 | the undo of one entry, on the objects it concerns |
| `SimpleLedger.SimpleLedger.RevertLog` | internal/ledger/state_changer.go:46-61 | the backward loop computes the undo of the value model |
| `SimpleLedger.SimpleLedger.RevertToSnapshot` | internal/ledger/state_accessor.go:448-459 | found exactly when the id is valid, and then the revert of the value model |
| `SimpleLedger.SimpleLedger.ClearChangerAndRefund` | internal/ledger/state_accessor.go:497-504 | the ledger gets a fresh log object and every live account becomes untracked |
| `SimpleLedger.SimpleLedger.Replay` | internal/ledger/state_accessor.go:20-575 | over every run of calls the object is in the state of the value model and shows what the flat map holds, stale accounts included |
| `AccountCache.Lru.Add` | internal/ledger/account_cache.go:48-89 | the cache after any order of the flushed accounts |
| `AccountCache.Lru.GetState` | internal/ledger/account_cache.go:103-111 | a hit decides the value, nil included; a miss leaves it to the store |
| `JournalStore.CommitAll` | internal/ledger/state_accessor.go:268-317 | the table writes do not depend on the order of accounts and keys |
| `JournalStore.RevertJournal` | internal/ledger/block_journal.go:31-59 | the table writes do not depend on the order of previous states |
| `JournalStore.Journals.constructor` | internal/ledger/simple_ledger.go:73-115 | range and previous hash are read back from the store |
| `JournalStore.Journals.Commit` | internal/ledger/state_accessor.go:265-353 | one commit step of the stored side |
| `JournalStore.Journals.RemoveJournalsBeforeBlock` | internal/ledger/simple_ledger.go:122-144 | exactly the journals below the height go |
| `JournalStore.Journals.RollbackState` | internal/ledger/state_accessor.go:363-410 | result and state of the value model, one batch per height |
| `Recovery.StoreRunOk` | internal/ledger/state_accessor.go:265-410 | over every run of commits, rollbacks and crashes inside either, the stored journals are exactly those of the stored range and lead back to every table in it |
| `Recovery.ReachRunOk` | internal/ledger/state_accessor.go:265-410 | over every run of commits, rollbacks and crashes inside either, rollback succeeds on exactly the heights of a set that each event extends, prunes or lowers |
| `Recovery.CommitsReach` | internal/ledger/state_accessor.go:345-349 | after n commits on an empty store rollback succeeds on exactly n, the ten heights before it, and 0 while n is at most eleven |
| `Recovery.SpanIff` | internal/ledger/state_accessor.go:341-349 | exactly when more than eleven journals are stored |
| `Recovery.SpanRun` | internal/ledger/state_accessor.go:341-349 | over every run without that case at most eleven journals are stored |
| `Recovery.NewAtHeight` | internal/ledger/ledger.go:36-86 | for every disk, the node comes up exactly when the chain's height is in the state's window, with the tables of that height |
| `Recovery.NewIff` | internal/ledger/ledger.go:36-86 | whatever the block file holds, both halves come up at the height of the chain's tables, exactly when it is in the state's window; the chain is then sound if and only if the file matches |
| `Recovery.CrashWhilePersisting` | internal/ledger/chain_ledger_impl.go:201-265 | after a crash with any of the state batches, the block file append and the chain's batch done, exactly when the node comes up and at which block, and that its chain is sound if and only if file and batch agree |
| `Recovery.FileBehind` | internal/ledger/chain_ledger_impl.go:394-440 | with the file behind the tables every rollback fails |
| `Recovery.FileAhead` | internal/ledger/chain_ledger_impl.go:394-464 | with the file ahead of them the next rollback restores a sound chain |
| `Recovery.CrashWhileRollingBack` | internal/ledger/ledger.go:118-128 | after a crash between any two batches or file truncations of a rollback, exactly when the node comes up, at which block, and exactly when its chain is sound |
| `LedgerObject.New` | internal/ledger/ledger.go:36-86 | the object exists exactly when the value model opens, with its two halves |
| `LedgerObject.Ledger.PersistBlockData` | internal/ledger/ledger.go:89-115 | both halves get the block, whichever finishes first |
| `LedgerObject.Ledger.Rollback` | internal/ledger/ledger.go:118-128 | the chain is rolled back only if the state was |
| `ChainLedger.RollbackRestoresFile` | internal/ledger/chain_ledger_impl.go:419-464 | rollback restores file, chain meta, transaction sets and interchain count for every chain |
| `ChainLedger.RollbackRestoresIff` | internal/ledger/chain_ledger_impl.go:394-464 | all tables but the one from heights to hashes are restored if and only if no removed block reuses a kept hash |
| `ChainLedger.RunSame` | internal/ledger/chain_ledger_impl.go:201-464 | over every run of persisting and rolling back the ledger is the chain of the blocks that remain, and the interchain count is the sum of their counters, with no underflow |
| `ChainLedger.PersistedMeta` | internal/ledger/chain_ledger_impl.go:201-265 | file, height, block hash and interchain count of every chain |
| `ChainLedger.PersistedSets` | internal/ledger/chain_ledger_impl.go:320-337 | every height of the chain and no other has the hashes of its transactions |
| `ChainLedger.MetaPointsAt` | internal/ledger/chain_ledger_impl.go:320-337 | every stored transaction meta leads to a block and position that hold the transaction |
| `ChainLedger.MetaPresent` | internal/ledger/chain_ledger_impl.go:320-337 | exactly the transactions of the chain have a meta |
| `ChainLedger.MetaIsLatest` | internal/ledger/chain_ledger_impl.go:320-337 | a transaction stored more than once is found at its last block and position |
| `ChainLedger.HashesPointAt` | internal/ledger/chain_ledger_impl.go:339-381 | the tables between heights and hashes lead to the right blocks |
| `ChainLedger.HeightPresent` | internal/ledger/chain_ledger_impl.go:339-381 | exactly the hashes of the chain have a height |
| `ChainLedger.HeightIsLatest` | internal/ledger/chain_ledger_impl.go:339-381 | a hash that two blocks share leads to the later one |
| `ChainLedger.LeftoverHashes` | internal/ledger/chain_ledger_impl.go:419-464 | after a rollback the heights that remain lead to their hashes, and every height above leads to a hash that no longer leads to a height |
| `ChainLedger.RunHashes` | internal/ledger/chain_ledger_impl.go:201-464 | over every run the heights of the chain lead to the hashes of its blocks |
| `ChainLedger.SumAdds` | internal/ledger/chain_ledger_impl.go:466-473 | one counter counts itself, and counters add up in any split |
| `ChainStore.ChainLedgerImpl.PersistExecutionResult` | internal/ledger/chain_ledger_impl.go:201-265 | file, tables and meta get the block |
| `ChainStore.PrepareTransactions` | internal/ledger/chain_ledger_impl.go:320-337 | the metas of all transactions, a repeated hash keeping the later index |
| `ChainStore.ChainLedgerImpl.RemoveChainDataOnBlock` | internal/ledger/chain_ledger_impl.go:394-417 | the file is cut at once, the table deletions join the batch |
| `ChainStore.ChainLedgerImpl.RollbackBlockChain` | internal/ledger/chain_ledger_impl.go:419-464 | result and state of the value model; where a block cannot be read back only the file can have changed, and not if it was the first |
| `ChainStore.CountInterchain` | internal/ledger/chain_ledger_impl.go:466-473 | the sum of the counters |
| `Executor.FailureShows` | internal/executor/handle.go:476-535 | a transaction that cannot pay never panics and leaves what its revert leaves, stale accounts and unlogged writes included, with the sender's balance there shared out and the nonce moved on |
| `Executor.FailureSettles` | internal/executor/handle.go:764-793 | and what every single account then holds |
| `Executor.PaidShows` | internal/executor/handle.go:476-535 | the whole view after a transaction that can pay: what its calls left, the fee taken and shared out, the nonce moved on, the refund counter at zero |
| `Executor.PaidSettles` | internal/executor/handle.go:764-793 | and what every single account then holds |
| `Executor.FailureIsAtomic` | internal/executor/handle.go:476-535 | with no stale account and every change logged, it leaves only the sender's balance shared out and the nonce moved on |
| `Executor.AtomicIffNoStale` | internal/executor/handle.go:476-535 | fee failures are atomic for every transaction that logs its changes if and only if no account is stale when it starts |
| `Executor.BlockIsRun` | internal/executor/serial_executor.go:30-42 | any number of transactions, paid or not, never panic and are one run of ledger calls that keeps the ledger valid |
| `Executor.BlockRefines` | internal/executor/serial_executor.go:30-42 | so over every block the ledger reads as the flat map |
| `Executor.FeeDust` | internal/executor/handle.go:764-793 | a fee loses only its remainder among the admins, with repeated admins and a paying admin |
| `Executor.GasFeeShares` | internal/executor/handle.go:764-793 | exactly when the fee can be paid, and then the share of every account |
| `Executor.GasFeeDust` | internal/executor/handle.go:764-773 | so the total on the ledger loses only the remainder |
| `Executor.ShareOf` | internal/executor/handle.go:781-793 | every account gets the share once for each time it is listed as an admin |
| `Executor.TransferMoves` | internal/executor/handle.go:694-710 | exactly when a transfer succeeds, and then what both accounts show, the same account on both sides included, and that nothing else changes |
| `Executor.TransferConservesIff` | internal/executor/handle.go:694-710 | a transfer conserves the total if and only if it moves nothing or sender and recipient differ |
| `Executor.TransferTotal` | internal/executor/handle.go:476-588 | for every transfer transaction, paid or not and whichever accounts are stale, what the total of all balances gains besides losing the remainder of what is charged, and exactly when that is nothing |
| `Executor.StalePayment` | internal/executor/handle.go:520-533 | the transfers whose failed fee creates or destroys exactly the value |
| `Executor.ValueAppears` | internal/executor/handle.go:520-533 | a ledger and a transfer on which ten units appear |
| `ExecutorObject.BlockExecutor.Transfer` | internal/executor/handle.go:694-710 | the transfer of the value model, on the ledger object |
| `ExecutorObject.BlockExecutor.PayAdmins` | internal/executor/handle.go:781-793 | the loop pays each admin the same share |
| `ExecutorObject.BlockExecutor.PayGasFee` | internal/executor/handle.go:764-773 | pays in full or touches only the sender's account |
| `ExecutorObject.BlockExecutor.PayLeftAsGasFee` | internal/executor/handle.go:775-779 | all that is left goes to the admins |
| `ExecutorObject.BlockExecutor.ApplyTransaction` | internal/executor/handle.go:476-535 | the transaction of the value model, on the ledger object |
| `ExecutorObject.BlockExecutor.ApplyTransactions` | internal/executor/serial_executor.go:30-42 | the loop over a block never panics and computes the block of the value model |
| `TimeoutList.RemoveFromStr` | internal/executor/handle.go:959-967 | the in-place loop computes the sweep that skips after a match, and panics exactly when it runs off the end |
| `TimeoutList.RemovalCorrectIff` | internal/executor/handle.go:959-967 | all occurrences are removed, without a panic, if and only if the id occurs at most once, or is not last and never stands next to itself |
| `TimeoutList.SweepRemovesIff` | internal/executor/handle.go:959-967 | the sweep removes all occurrences if and only if no two are adjacent |
| `TimeoutList.JoinAppend` | internal/executor/handle.go:947-957 | appending to the string is appending to the list, the empty list included |
| `TimeoutList.RemoveTimeoutList` | internal/executor/handle.go:935-945 | for all strings, the loop computes the removals one after the other, and panics exactly when one of them does |
| `TimeoutList.RemoveStrsOf` | internal/executor/handle.go:935-945 | on the strings of lists of ids these are the removals from the list, repeated ids included |
| `TimeoutList.RemovedCorrectIff` | internal/executor/handle.go:935-967 | removing different ids takes out every occurrence, without a panic, if and only if each single removal does |
| `TimeoutList.DistinctRemoved` | internal/executor/handle.go:935-967 | from a list in which no id repeats exactly the ids to be removed go |
| `TimeoutList.SetTimeoutList` | internal/executor/handle.go:833-925 | every height ends with its old ids and the added ones less what the removals take, in any order of heights; it panics exactly when a removal does |
| `TimeoutList.WithoutAllContents` | internal/executor/handle.go:935-945 | exactly the ids to be removed are gone |
| `ProofGroups.GroupsPartition` | internal/executor/executor.go:283-300 | every transaction index is in exactly one group, for every block size and group count |
| `ProofGroups.GroupsWork` | internal/executor/executor.go:283-300 | at most the configured number of groups, none of them idle, all but the last of one size |
| `ProofGroups.AnyOrderIsSerial` | internal/executor/executor.go:300-331 | any order of the locked merges gives the invalid map of one serial pass |
| `ProofGroups.VerifyProofs` | internal/executor/executor.go:266-331 | the grouped check reports exactly the transactions whose proof fails, each with its reason |
| `Interchain.ParseFullId` | internal/executor/contracts/interchain.go:596-614 | a parsed service prints the id it was parsed from, so the counter checked is the one advanced |
| `Interchain.CheckedIndex` | internal/executor/contracts/interchain.go:205-285 | a message passes only with the next index of its counter, unless batched |
| `Interchain.CheckedRequest` | internal/executor/contracts/interchain.go:205-257 | the answer to every request, with the reason of a refusal |
| `Interchain.CheckedReceipt` | internal/executor/contracts/interchain.go:258-285 | the answer to every receipt and rollback notification |
| `Interchain.RequestAcceptedIff` | internal/executor/contracts/interchain.go:173-257 | a request is accepted if and only if its ids are well formed, one end is at this hub, the source is available, it can be begun, and it is batched or next in line; it then moves the counters of its pair and no others |
| `Interchain.ReceiptAcceptedIff` | internal/executor/contracts/interchain.go:173-285 | a receipt is accepted if and only if its ids are well formed, one end is at this hub, it is reported, and it is next in line; a final one moves the receipt counters of its pair and no others |
| `Interchain.OthersRejected` | internal/executor/contracts/interchain.go:173-285 | nothing else is accepted or leaves a trace |
| `Interchain.RequestTally` | internal/executor/contracts/interchain.go:351-400 | a request moves the two request counters of its own pair and no other |
| `Interchain.ReceiptTally` | internal/executor/contracts/interchain.go:437-443 | a final receipt moves the two receipt counters of its own pair and no other |
| `Interchain.PairInvariant` | internal/executor/contracts/interchain.go:173-443 | over every run of messages between any services, an ordered pair accepts requests 1, 2, 3, ... once each, both sides agree, and receipts advance one by one and never pass the requests |
| `Interchain.PairFromStart` | internal/executor/contracts/interchain.go:173-443 | so it is over every run from the empty store |
| `Interchain.NextAccepted` | internal/executor/contracts/interchain.go:173-400 | the next request of an available ordered pair is always accepted and moves both its counters |
| `Interchain.NextReceipt` | internal/executor/contracts/interchain.go:258-443 | the next receipt of a pair with requests left to answer is always accepted |
| `Interchain.AllAccepted` | internal/executor/contracts/interchain.go:173-400 | so requests sent in order are all accepted |
| `Interchain.CountedAlways` | internal/executor/contracts/interchain.go:351-400 | the request counter of any pair, ordered or not, is the number of requests accepted |
| `Interchain.RepeatIff` | internal/executor/contracts/interchain.go:205-285 | a request is accepted again exactly when its destination is unordered |
| `Interchain.InterchainManager.SetDestInterchain` | internal/executor/contracts/interchain.go:437-443 | both receipt counters of the pair become the index, and no other counter of any pair changes, also when source and destination are one service |
| `Interchain.InterchainManager.ProcessIBTP` | internal/executor/contracts/interchain.go:351-413 | the counters of the value model |
| `Interchain.InterchainManager.HandleIBTP` | internal/executor/contracts/interchain.go:173-203 | one step of the value model, and a rejected message leaves no trace |
| `Strategy.DecisionExact` | internal/repo/repo.go:168-201 | for a monotone strategy over approvals the decision is approved, rejected or open exactly as every completion passes, every one fails, or both are left |
| `Strategy.DecisionExactIff` | internal/repo/repo.go:168-201 | for every strategy that evaluates, the decisions are all exact if and only if the final result is monotone and an early pass is the final pass with all others against |
| `Strategy.EarlyCloseSoundIff` | internal/repo/repo.go:168-201 | for every strategy that evaluates, closing early agrees with every completion if and only if the final result is monotone in the approvals and what holds early lasts |
| `Strategy.ApprovalsOnly` | internal/repo/repo.go:168-201 | a strategy that looks at approvals only meets these conditions exactly if it is monotone |
| `Strategy.SimpleMajorityMonotone` | internal/repo/config.go:38-41 | the default majority is such a strategy |
| `Strategy.MajorityThreshold` | internal/repo/config.go:38-41 | under the default majority exactly more than half of the electorate passes, and the threshold is the least such number |
| `Strategy.RejectsMatter` | internal/repo/repo.go:168-201 | a strategy over rejections for which closing early is wrong, since its pass does not last |
| `Strategy.ClosedWhenAllVoted` | internal/repo/repo.go:168-201 | once all have voted every strategy decides |
| `Strategy.ThresholdIff` | internal/executor/contracts/governance.go:343-355 | the threshold is the least number of approvals that passes |
| `Strategy.GetCurThresholdApproveNum` | internal/executor/contracts/governance.go:343-355 | the search loop finds it, or nothing |
| `Strategy.CheckStrategyExpression` | internal/repo/repo.go:138-162 | accepted exactly when some number of approvals passes and the expression evaluates up to there |
| `Strategy.AlwaysThreshold` | internal/executor/contracts/governance.go:343-355 | an accepted monotone strategy leaves a threshold at every stage of a ballot |
| `Voting.VotingRun` | internal/executor/contracts/governance.go:540-618 | over every sequence of vote attempts the tallies equal the ballots and stay within the electorate, and a special proposal ends only after a super admin voted |
| `Voting.VoteKeeps` | internal/executor/contracts/governance.go:482-618 | every accepted vote keeps tallies and status true to the ballots |
| `Voting.VotedBallot` | internal/executor/contracts/governance.go:540-588 | exactly which votes are accepted under any strategy, and that the choice is stored with the voter's weight and counted on its side |
| `Voting.AllVotedClosed` | internal/executor/contracts/governance.go:592-618 | a vote is over once all electors voted, and a super admin if required |
| `Voting.OutcomeFinal` | internal/executor/contracts/governance.go:592-618 | with a monotone strategy, approved or rejected exactly when every completion of the ballot agrees |
| `Voting.ThresholdStored` | internal/executor/contracts/governance.go:576-581 | the threshold stored with a vote is the least number of approvals that would pass |
| `Voting.VoteAcceptedIff` | internal/executor/contracts/governance.go:540-588 | with an accepted monotone strategy, a vote counts exactly if the proposal is open and an elector votes for the first time |
| `Governance.GovRunOk` | internal/executor/contracts/governance.go:126-240 | over every run of submissions, votes and status changes, indices, ids, tallies and locks are in order |
| `Governance.OneStatusIndex` | internal/executor/contracts/governance.go:126-168 | a proposal is in the index of its status and of no other, and in those of its sender, object and type |
| `Governance.MoveIndexed` | internal/executor/contracts/governance.go:155-168 | a status change moves the id, once, from one index to the other |
| `Governance.FreshId` | internal/executor/contracts/governance.go:215-216 | the id of a new proposal is not in use |
| `Governance.SubmitStep` | internal/executor/contracts/governance.go:171-258 | a submission is refused only for want of a threshold, and keeps all of it in order |
| `Governance.SubmitOutcome` | internal/executor/contracts/governance.go:171-258 | an accepted submission stores one open proposal without ballots under the next id of its sender, special exactly for roles, strategies, freezing, activating and logging out, and pauses only the proposal it locks |
| `Governance.LockStep` | internal/executor/contracts/governance.go:721-759 | a lock pauses one open proposal on the same object with strictly lower priority |
| `Governance.LockableIff` | internal/executor/contracts/governance.go:63-74 | which open proposals give way to which event |
| `Governance.LocksAcyclic` | internal/executor/contracts/governance.go:63-74 | lock chains stay on one object, are acyclic and hold at most four proposals |
| `Governance.BallotOutcome` | internal/executor/contracts/governance.go:482-618 | a vote leaves the proposal as the voting rules do, and every other proposal alone |
| `GovernanceContracts.GovernanceContract.AddProposal` | internal/executor/contracts/governance.go:126-153 | store and four indices get the proposal |
| `GovernanceContracts.GovernanceContract.ChangeProposalStatus` | internal/executor/contracts/governance.go:155-168 | store and status indices change together |
| `GovernanceContracts.GovernanceContract.LockLowPriorityProposal` | internal/executor/contracts/governance.go:721-759 | the first open proposal of lower priority is paused |
| `GovernanceContracts.GovernanceContract.UnlockLowPriorityProposal` | internal/executor/contracts/governance.go:806-827 | the locked proposal is resumed or rejected |
| `GovernanceContracts.GovernanceContract.SetVote` | internal/executor/contracts/governance.go:540-588 | the ballot of the value model, stored only if accepted |
| `GovernanceContracts.GovernanceContract.SubmitProposal` | internal/executor/contracts/governance.go:171-258 | lock, new id and new proposal of the value model |
| `GovernanceContracts.GovernanceContract.HandleResult` | internal/executor/contracts/governance.go:620-637 | the locked proposal and the role follow the outcome |
| `GovernanceContracts.GovernanceContract.Vote` | internal/executor/contracts/governance.go:482-537 | the voter's availability, ballot, count and outcome of the value model; a failing vote has written nothing where roles and proposals agree |
| `GovernanceContracts.GovernanceContract.WithdrawProposal` | internal/executor/contracts/governance.go:358-400 | the withdrawal of the value model by the proposal's own sender; a failing one has written nothing where roles and proposals agree |
| `GovernanceContracts.RoleManager.ChangeStatus` | internal/executor/contracts/role.go:152-166 | the state machine's move, or no change |
| `GovernanceContracts.RoleManager.RegisterRole` | internal/executor/contracts/role.go:442-506 | the registration of the value model, and what a failing one leaves |
| `GovernanceContracts.RoleManager.Govern` | internal/executor/contracts/role.go:693-753 | freezing, activating or logging out as in the value model; a failing call has written nothing where roles and proposals agree |
| `RoleLifecycle.RealmRunOk` | internal/executor/contracts/role.go:67-166 | over every run of register, freeze, activate, logout, vote and withdrawal of open proposals, whether or not a failed registration is undone, every role's status matches its one open proposal, and only a logouting role has a paused one, the one its logout locked |
| `RoleLifecycle.FireIff` | internal/executor/contracts/role.go:90-131 | the moves of the state machine one by one, that nothing leads out of forbidden and only a registration out of unavailable |
| `RoleLifecycle.SubmitRole` | internal/executor/contracts/role.go:693-744 | a new proposal finds its role settled, or is a logout that locks the open one |
| `RoleLifecycle.GovernOutcome` | internal/executor/contracts/role.go:693-744 | exactly which freezes, activations and logouts go through, the status they leave and the proposal they open |
| `RoleLifecycle.RegisterOutcome` | internal/executor/contracts/role.go:442-487 | the same for registrations |
| `RoleLifecycle.CloseStep` | internal/executor/contracts/governance.go:620-637 | a closed vote is always carried out on its role, and keeps all roles in order |
| `RoleLifecycle.CloseOutcome` | internal/executor/contracts/governance.go:620-637 | an approved registration makes the role available, an approved freeze frozen, an approved activation available, an approved logout forbidden; a rejection restores the status before; the locked proposal is rejected or open again, and nothing else changes |
| `RoleLifecycle.VoteSucceeds` | internal/executor/contracts/governance.go:482-537 | a vote whose ballot is accepted is always counted and carried out |
| `RoleLifecycle.VoteOutcome` | internal/executor/contracts/governance.go:482-537 | exactly which votes go through, and what they leave of proposal and role |
| `RoleLifecycle.WithdrawOutcome` | internal/executor/contracts/governance.go:358-400 | a withdrawal goes through exactly for the sender of an open or paused proposal, and restores the status before it |
| `RoleLifecycle.RejectedLogoutRestores` | internal/executor/contracts/governance.go:620-637 | a rejected logout restores the status before it, with the locked proposal open again and nothing paused |
| `RoleLifecycle.WithdrawKeepsIff` | internal/executor/contracts/governance.go:358-400 | the sender of an open or paused proposal can always withdraw it, and that keeps roles and proposals in step if and only if it is open |
| `RoleLifecycle.PausedRun` | internal/executor/contracts/governance.go:358-400 | from any state in order, freezing a role and logging it out leaves a paused proposal whose withdrawal breaks the agreement |
| `RoleLifecycle.PausedFromGenesis` | internal/executor/contracts/governance.go:358-400 | such a run from a genesis of two admins |
| `RoleLifecycle.LogoutAsksTooLate` | internal/executor/contracts/role.go:636-657 | after a logout the role is no longer available, so its check never holds |
| `RoleLifecycle.GenesisOk` | internal/executor/contracts/role.go:67-88 | available admins and no proposals are a consistent start |
| `Sampling.RandRangeNumbers` | api/grpc/sign.go:290-325 | for every random choice, as many pairwise distinct numbers as asked for, all in the range, negative ranges included: those that the textbook shuffle of the range draws |
| `Sampling.EverySample` | api/grpc/sign.go:290-325 | every sequence of distinct numbers of the range can be drawn |
| `Sampling.RandomSigners` | api/grpc/sign.go:255-268 | the signers are a quorum of distinct members, and with the non-parties they partition the list |
| `Sampling.FindUnmatched` | pkg/utils/utils.go:366-379 | exactly the members that are not signers, in order |
| `BytesPrefix.BytesPrefixRange` | internal/ledger/account.go:402-414 | a key starts with the prefix if and only if it lies in the range, for every prefix and key, all-0xff and empty ones included |

## Left out

- `FlatLedger.RunRefines`: the flat map is told which accounts are stale and which snapshots an unlogged write slips under. Values are nil or non-empty, nil code is set only where no code is stored, and unlogged writes are to keys whose stored value is known; `LedgerSteps` says exactly what the other writes break.
- `NodeLedger.EveryRunRefines`: leaves out evictions between a flush and its commit, and snapshots held across a flush. A crash is followed by a restart at a height in the window; `Recovery` says when there is one.
- `ExecutorObject.BlockExecutor.ApplyTransaction`: the branch without a change instance; the one for parallel cross-chain transactions is modelled on values in `ParallelExecutor`. A transaction of unknown type only pays its fee.
- `blockfile` and the parallel scheduler are libraries that are not part of this model: the file is a sequence of blocks, and any interleaving is allowed.
- Electorate-size updates (`UpdateAvailableElectorateNum`, `updateRoleRelatedProposalInfo`, `updateStrategyInfo`): they end proposals without a status check and need preconditions of their own.
- ZeroPermission strategies, pausing and binding of audit admins, and the dapp, node, rule, service and appchain managers: the same pattern, with state machines in a library.
- Two managers that use the same object id: role theorems are about runs of role proposals.
- One-to-many IBTP groups, notifications to piers, services removed by `DeleteInterchain`: other counter rules.
- `Interchain.PairInvariant`: counters are unbounded, and the key of a recorded request is the triple of source, destination and index rather than the string made of them.
- `Query`, `GetCommittedState`, `Suiside` and `HasSuiside`: they do not follow the flat view.
- `SubBalance`, `AddBalance`, `Exist`, `Empty`, `GetCodeHash` and `GetCodeSize`: compositions of modelled calls that add only easy members.
- EVM transactions, contract dispatch, receipts, bloom filters and Merkle roots: foreign code.
- `ParallelUndo.RevertRemoves`: one `SetState` call is one step, whose reads and writes are not interleaved; change instances are values rather than pooled objects.
- `StateRoot.FlushDirtyData`: works on the accounts as values, so it does not show the update of `originCode` in the account object.
- `AccountCache.Lru.Add`: the maps are unbounded; evictions are separate steps of `NodeLedger`.
- `Commit` of a root that was never flushed: an error before anything is stored.
- Locks and goroutines, except the interleavings of `ParallelUndo`, `ProofGroups` and `LedgerObject`: the rest is sequential.
- Rounding of strategy expressions above 2^53: they are evaluated over the integers and reals.
