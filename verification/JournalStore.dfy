/** The stored half of the state ledger as an object: the loops of `Commit`,
    `removeJournalsBeforeBlock` and `RollbackState` over batches, in whatever order Go
    enumerates its maps, proved to compute the steps of StateStore. */
module JournalStore {
  import opened GoBytes
  import opened LedgerModel
  import opened BlockJournal
  import StateStore

  // ---- one account of a commit ------------------------------------------------------------------

  function One(a: Address, acc: Account): map<Address, Account> {
    map[a := acc]
  }

  type StateTable = map<(Address, Key), Bytes>

  /** The state table after the changed keys in `keys` are written. */
  function Written(m: StateTable, a: Address, acc: Account, keys: set<Key>): StateTable {
    (m - set k | k in keys && KeyChanged(acc, k) && acc.dirtyState[k].None? :: (a, k))
    + map k | k in keys && KeyChanged(acc, k) && acc.dirtyState[k].Some? :: (a, k) := acc.dirtyState[k].value
  }

  function WriteKey(m: StateTable, a: Address, k: Key, v: Val): StateTable {
    Restore(m, (a, k), v)
  }

  lemma WrittenNext(m: StateTable, a: Address, acc: Account, keys: set<Key>, k: Key)
    requires k !in keys && k in acc.dirtyState
    ensures Written(m, a, acc, keys + {k}) ==
            if KeyChanged(acc, k) then WriteKey(Written(m, a, acc, keys), a, k, acc.dirtyState[k])
            else Written(m, a, acc, keys)
  {
    hide KeyChanged;
    var l, r := Written(m, a, acc, keys + {k}), Written(m, a, acc, keys);
    var w := if KeyChanged(acc, k) then WriteKey(r, a, k, acc.dirtyState[k]) else r;
    forall p: (Address, Key)
      ensures Lookup(l, p) == Lookup(w, p)
    {
      WrittenAt(m, a, acc, keys + {k}, p);
      WrittenAt(m, a, acc, keys, p);
    }
    SameLookup(l, w);
  }

  lemma WrittenAt(m: StateTable, a: Address, acc: Account, keys: set<Key>, p: (Address, Key))
    ensures Lookup(Written(m, a, acc, keys), p) ==
            if p.0 == a && p.1 in keys && KeyChanged(acc, p.1) then acc.dirtyState[p.1] else Lookup(m, p)
  {
    hide KeyChanged;
    assert p == (p.0, p.1);
  }

  lemma WrittenAll(m: StateTable, a: Address, acc: Account)
    ensures Written(m, a, acc, acc.dirtyState.Keys) == CommitStates(m, One(a, acc))
  {
    hide KeyChanged;
    var l, r := Written(m, a, acc, acc.dirtyState.Keys), CommitStates(m, One(a, acc));
    forall p: (Address, Key)
      ensures Lookup(l, p) == Lookup(r, p)
    {
      WrittenAt(m, a, acc, acc.dirtyState.Keys, p);
      CommitStatesAt(m, One(a, acc), p.0, p.1);
    }
    SameLookup(l, r);
  }

  /** The state writes of `Commit` for one account, its dirty keys in any order. */
  method CommitStatesOf(m: StateTable, a: Address, acc: Account) returns (u: StateTable)
    ensures u == CommitStates(m, One(a, acc))
  {
    hide KeyChanged, Written, CommitStates, WriteKey;
    u := m;
    var done: set<Key>, rest := {}, acc.dirtyState.Keys;
    WrittenNone(m, a, acc);
    while rest != {}
      invariant done + rest == acc.dirtyState.Keys && done !! rest
      invariant u == Written(m, a, acc, done)
      decreases |rest|
    {
      var k :| k in rest;
      WrittenNext(m, a, acc, done, k);
      if KeyChanged(acc, k) {
        u := WriteKey(u, a, k, acc.dirtyState[k]);
      }
      done, rest := done + {k}, rest - {k};
    }
    assert done == acc.dirtyState.Keys;
    WrittenAll(m, a, acc);
  }

  method CommitAccount(t: Tables, a: Address, acc: Account) returns (u: Tables)
    ensures u == CommitTables(t, One(a, acc))
  {
    hide CodeChanged, InnerChanged, CommitStates, CommitAccounts, CommitCodes;
    u := t;
    if InnerChanged(acc.origin, acc.dirty) {
      u := u.(accounts := u.accounts[a := NewInner(acc)]);
    }
    if CodeChanged(acc) {
      if acc.dirtyCode.Some? {
        u := u.(codes := u.codes[a := acc.dirtyCode.value]);
      } else if acc.dirty.Some? && HashOf(acc.origin) != acc.dirty.value.codeHash && acc.dirty.value.codeHash.None? {
        u := u.(codes := u.codes - {a});
      }
    }
    var states := CommitStatesOf(u.states, a, acc);
    u := u.(states := states);
    InnerOf(t, a, acc);
    CodesOf(t, a, acc);
  }

  function NewInner(acc: Account): Inner
    requires InnerChanged(acc.origin, acc.dirty)
  {
    acc.dirty.value
  }

  lemma InnerOf(t: Tables, a: Address, acc: Account)
    ensures CommitAccounts(t.accounts, One(a, acc)) ==
            if InnerChanged(acc.origin, acc.dirty) then t.accounts[a := acc.dirty.value] else t.accounts
  {
  }

  lemma CodesOf(t: Tables, a: Address, acc: Account)
    ensures CommitCodes(t.codes, One(a, acc)) ==
            if !CodeChanged(acc) then t.codes
            else if acc.dirtyCode.Some? then t.codes[a := acc.dirtyCode.value]
            else if CodeDropped(acc) then t.codes - {a} else t.codes
  {
    hide BytesEqual;
  }

  lemma WrittenNone(m: StateTable, a: Address, acc: Account)
    ensures Written(m, a, acc, {}) == m
  {
    hide KeyChanged;
    forall p: (Address, Key)
      ensures Lookup(Written(m, a, acc, {}), p) == Lookup(m, p)
    {
      WrittenAt(m, a, acc, {}, p);
    }
    SameLookup(Written(m, a, acc, {}), m);
  }

  // ---- all accounts of a commit --------------------------------------------------------------------

  lemma CommitNextStates(m: StateTable, accs: map<Address, Account>, a: Address, acc: Account)
    requires a !in accs
    ensures CommitStates(m, accs[a := acc]) == CommitStates(CommitStates(m, accs), One(a, acc))
  {
    hide KeyChanged, CommitStates;
    var l, r := CommitStates(m, accs[a := acc]), CommitStates(CommitStates(m, accs), One(a, acc));
    forall p: (Address, Key)
      ensures Lookup(l, p) == Lookup(r, p)
    {
      CommitStatesAt(m, accs[a := acc], p.0, p.1);
      CommitStatesAt(m, accs, p.0, p.1);
      CommitStatesAt(CommitStates(m, accs), One(a, acc), p.0, p.1);
    }
    SameLookup(l, r);
  }

  lemma CommitNextAccounts(m: map<Address, Inner>, accs: map<Address, Account>, a: Address, acc: Account)
    requires a !in accs
    ensures CommitAccounts(m, accs[a := acc]) == CommitAccounts(CommitAccounts(m, accs), One(a, acc))
  {
    hide CommitAccounts, InnerChanged;
    var l, r := CommitAccounts(m, accs[a := acc]), CommitAccounts(CommitAccounts(m, accs), One(a, acc));
    forall b: Address
      ensures Lookup(l, b) == Lookup(r, b)
    {
      CommitAccountsAt(m, accs[a := acc], b);
      CommitAccountsAt(m, accs, b);
      CommitAccountsAt(CommitAccounts(m, accs), One(a, acc), b);
    }
    SameLookup(l, r);
  }

  lemma CommitNextCodes(m: map<Address, Bytes>, accs: map<Address, Account>, a: Address, acc: Account)
    requires a !in accs
    ensures CommitCodes(m, accs[a := acc]) == CommitCodes(CommitCodes(m, accs), One(a, acc))
  {
    hide CommitCodes, CodeChanged, CodeDropped;
    var l, r := CommitCodes(m, accs[a := acc]), CommitCodes(CommitCodes(m, accs), One(a, acc));
    forall b: Address
      ensures Lookup(l, b) == Lookup(r, b)
    {
      CommitCodesAt(m, accs[a := acc], b);
      CommitCodesAt(m, accs, b);
      CommitCodesAt(CommitCodes(m, accs), One(a, acc), b);
    }
    SameLookup(l, r);
  }

  lemma CommitNext(t: Tables, accs: map<Address, Account>, a: Address, acc: Account)
    requires a !in accs
    ensures CommitTables(t, accs[a := acc]) == CommitTables(CommitTables(t, accs), One(a, acc))
  {
    hide CommitStates, CommitCodes, CommitAccounts;
    CommitNextAccounts(t.accounts, accs, a, acc);
    CommitNextStates(t.states, accs, a, acc);
    CommitNextCodes(t.codes, accs, a, acc);
  }

  lemma CommitNone(t: Tables)
    ensures CommitTables(t, map[]) == t
  {
    hide CommitStates;
    forall p: (Address, Key)
      ensures Lookup(CommitStates(t.states, map[]), p) == Lookup(t.states, p)
    {
      CommitStatesAt(t.states, map[], p.0, p.1);
    }
    SameLookup(CommitStates(t.states, map[]), t.states);
  }

  /** The entries of a map that an enumeration has met. */
  function Done<K, V>(m: map<K, V>, rest: set<K>): map<K, V> {
    map k | k in m && k !in rest :: m[k]
  }

  lemma DoneNone<K, V>(m: map<K, V>)
    ensures Done(m, m.Keys) == map[]
  {
  }

  lemma DoneNext<K, V>(m: map<K, V>, rest: set<K>, k: K)
    requires k in rest && k in m
    ensures Done(m, rest - {k}) == Done(m, rest)[k := m[k]]
  {
  }

  lemma DoneAll<K, V>(m: map<K, V>)
    ensures Done(m, {}) == m
  {
  }

  /** The table writes of `Commit`, the accounts in any order. */
  method CommitAll(t: Tables, accs: map<Address, Account>) returns (u: Tables)
    ensures u == CommitTables(t, accs)
  {
    hide CommitTables;
    u := t;
    var rest := accs.Keys;
    CommitNone(t);
    DoneNone(accs);
    while rest != {}
      invariant rest <= accs.Keys && u == CommitTables(t, Done(accs, rest))
      decreases |rest|
    {
      var a :| a in rest;
      CommitNext(t, Done(accs, rest), a, accs[a]);
      u := CommitAccount(u, a, accs[a]);
      DoneNext(accs, rest, a);
      rest := rest - {a};
    }
    DoneAll(accs);
  }

  // ---- reverting a journal ----------------------------------------------------------------------------

  lemma RestoreNext(m: StateTable, a: Address, done: map<Key, Val>, k: Key, v: Val)
    requires k !in done
    ensures RestoreStates(m, a, done[k := v]) == WriteKey(RestoreStates(m, a, done), a, k, v)
  {
    hide RestoreStates;
    var l, r := RestoreStates(m, a, done[k := v]), WriteKey(RestoreStates(m, a, done), a, k, v);
    forall p: (Address, Key)
      ensures Lookup(l, p) == Lookup(r, p)
    {
      RestoreStatesAt(m, a, done[k := v], p.0, p.1);
      RestoreStatesAt(m, a, done, p.0, p.1);
    }
    SameLookup(l, r);
  }

  lemma RestoreNone(m: StateTable, a: Address)
    ensures RestoreStates(m, a, map[]) == m
  {
    hide RestoreStates;
    forall p: (Address, Key)
      ensures Lookup(RestoreStates(m, a, map[]), p) == Lookup(m, p)
    {
      RestoreStatesAt(m, a, map[], p.0, p.1);
    }
    SameLookup(RestoreStates(m, a, map[]), m);
  }

  method RestoreAll(m: StateTable, a: Address, prev: map<Key, Val>) returns (u: StateTable)
    ensures u == RestoreStates(m, a, prev)
  {
    hide RestoreStates, WriteKey;
    u := m;
    var rest := prev.Keys;
    RestoreNone(m, a);
    DoneNone(prev);
    while rest != {}
      invariant rest <= prev.Keys && u == RestoreStates(m, a, Done(prev, rest))
      decreases |rest|
    {
      var k :| k in rest;
      RestoreNext(m, a, Done(prev, rest), k, prev[k]);
      u := WriteKey(u, a, k, prev[k]);
      DoneNext(prev, rest, k);
      rest := rest - {k};
    }
    DoneAll(prev);
  }

  /** `revertJournal`, the previous states in any order. */
  method RevertJournal(t: Tables, e: JournalEntry) returns (u: Tables)
    ensures u == RevertEntry(t, e)
  {
    hide RestoreStates;
    u := t;
    if e.accountChanged {
      u := u.(accounts := Restore(u.accounts, e.address, e.prevAccount));
    }
    var states := RestoreAll(u.states, e.address, e.prevStates);
    u := u.(states := states);
    if e.codeChanged {
      u := u.(codes := Restore(u.codes, e.address, e.prevCode));
    }
  }

  // ---- the object ----------------------------------------------------------------------------------------

  class Journals {
    var disk: StateStore.Disk
    var minJnlHeight: nat
    var maxJnlHeight: nat
    var prevJnlHash: Bytes

    /** `NewSimpleLedger` reads the journal range back from disk. */
    constructor (disk: StateStore.Disk)
      ensures State() == StateStore.Open(disk)
    {
      this.disk, minJnlHeight, maxJnlHeight := disk, disk.storedMin, disk.storedMax;
      prevJnlHash := StateStore.ZERO_HASH;
      if disk.storedMax != 0 && disk.storedMax in disk.blocks {
        prevJnlHash := disk.blocks[disk.storedMax].changedHash;
      }
    }

    function State(): StateStore.Store
      reads this
    {
      StateStore.Store(disk, minJnlHeight, maxJnlHeight, prevJnlHash)
    }

    /** The deletions of one batch, height by height. */
    method DeleteJournals(from: nat, to: nat) returns (blocks: map<nat, StateStore.BlockRecord>)
      ensures blocks == map i | i in disk.blocks && !(from <= i < to) :: disk.blocks[i]
    {
      blocks := disk.blocks;
      var i := from;
      while i < to
        invariant from <= i && (i <= to || i == from)
        invariant blocks == map j | j in disk.blocks && !(from <= j < i) :: disk.blocks[j]
      {
        blocks := blocks - {i};
        i := i + 1;
      }
    }

    method RemoveJournalsBeforeBlock(height: nat)
      modifies this
      ensures State() == StateStore.RemoveBefore(old(State()), height)
    {
      if height > maxJnlHeight || height <= minJnlHeight {
        return;
      }
      var blocks := DeleteJournals(minJnlHeight, height);
      disk := disk.(blocks := blocks, storedMin := height);
      minJnlHeight := height;
    }

    /** `Commit`, given the journal that the flush of this block stored. */
    method Commit(height: nat, accs: map<Address, Account>, block: StateStore.BlockRecord)
      requires prevJnlHash == block.changedHash
      modifies this
      ensures State() == StateStore.Commit(old(State()), height, accs, block)
    {
      hide CommitTables;
      var tables := CommitAll(disk.tables, accs);
      disk := StateStore.Disk(tables, disk.blocks[height := block], disk.storedMin, height);
      if minJnlHeight == 0 {
        minJnlHeight := height;
        disk := disk.(storedMin := height);
      }
      maxJnlHeight := height;
      if height > StateStore.WINDOW {
        RemoveJournalsBeforeBlock(height - StateStore.WINDOW);
      }
    }

    /** One batch of `RollbackState`. */
    method RevertBlock(i: nat)
      requires i in disk.blocks && i > 0
      modifies this`disk
      ensures disk == StateStore.RollbackBatch(old(disk), i)
    {
      hide RevertEntry;
      var tables, entries := disk.tables, disk.blocks[i].entries;
      var j := 0;
      while j < |entries|
        invariant 0 <= j <= |entries|
        invariant disk == old(disk)
        invariant RevertEntries(tables, entries[j..]) == RevertEntries(disk.tables, entries)
      {
        assert entries[j..][1..] == entries[j + 1..];
        tables := RevertJournal(tables, entries[j]);
        j := j + 1;
      }
      assert entries[j..] == [];
      disk := StateStore.Disk(tables, disk.blocks - {i}, disk.storedMin, i - 1);
    }

    method RollbackState(height: nat) returns (result: StateStore.RollbackResult)
      modifies this
      ensures (State(), result) == StateStore.Rollback(old(State()), height)
    {
      hide StateStore.RollbackBatch;
      if maxJnlHeight < height {
        return StateStore.ToHigherNumber;
      }
      if minJnlHeight > height && !(minJnlHeight == 1 && height == 0) {
        return StateStore.TooMuch;
      }
      if maxJnlHeight == height {
        return StateStore.RolledBack;
      }
      var i := maxJnlHeight;
      while i > height
        invariant height <= i
        invariant minJnlHeight == old(minJnlHeight) && maxJnlHeight == old(maxJnlHeight)
        invariant prevJnlHash == old(prevJnlHash)
        invariant StateStore.RollbackLoop(disk, i, height) == StateStore.RollbackLoop(old(disk), maxJnlHeight, height)
      {
        if i !in disk.blocks {
          return StateStore.WithoutJournal;
        }
        RevertBlock(i);
        i := i - 1;
      }
      if height != 0 {
        if height !in disk.blocks {
          return StateStore.WithoutJournal;
        }
        prevJnlHash := disk.blocks[height].changedHash;
      } else {
        prevJnlHash := StateStore.ZERO_HASH;
        minJnlHeight := 0;
      }
      maxJnlHeight := height;
      return StateStore.RolledBack;
    }
  }
}
