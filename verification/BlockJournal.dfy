/** Block journals: what `FlushDirtyData` records of the accounts it flushes, what
    `Commit` writes to the tables, and how `revertJournal` takes it back. */
module BlockJournal {
  import opened GoBytes
  import opened LedgerModel

  datatype JournalEntry = JournalEntry(
    address: Address,
    accountChanged: bool, prevAccount: Option<Inner>,
    prevStates: map<Key, Val>,
    codeChanged: bool, prevCode: Val)

  // ---- flushing one account -----------------------------------------------------------

  predicate InnerChanged(origin: Option<Inner>, dirty: Option<Inner>) {
    dirty.Some? && origin != dirty
  }

  function OriginVal(acc: Account, k: Key): Val {
    if k in acc.originState then acc.originState[k] else None
  }

  predicate KeyChanged(acc: Account, k: Key) {
    k in acc.dirtyState && !BytesEqual(OriginVal(acc, k), acc.dirtyState[k])
  }

  predicate CodeChanged(acc: Account) {
    !BytesEqual(acc.originCode, acc.dirtyCode)
  }

  /** Before the comparison the origin code is loaded if it is missing. */
  function WithOriginCode(acc: Account, stored: Val): Account {
    if acc.originCode.None? && HashOf(acc.origin).Some? then acc.(originCode := stored) else acc
  }

  function PrevStates(acc: Account): map<Key, Val> {
    map k | k in acc.dirtyState && KeyChanged(acc, k) :: OriginVal(acc, k)
  }

  function Journal(a: Address, acc: Account): JournalEntry {
    var changed := InnerChanged(acc.origin, acc.dirty);
    JournalEntry(a, changed, if changed then acc.origin else None, PrevStates(acc),
                 CodeChanged(acc), if CodeChanged(acc) then acc.originCode else None)
  }

  predicate Modified(acc: Account) {
    InnerChanged(acc.origin, acc.dirty) || CodeChanged(acc) || PrevStates(acc) != map[]
  }

  /** `entries` lists the journals of `accs`, each once, in some order. */
  ghost predicate JournalsFor(accs: map<Address, Account>, entries: seq<JournalEntry>) {
    && (forall i | 0 <= i < |entries| ::
          entries[i].address in accs && entries[i] == Journal(entries[i].address, accs[entries[i].address]))
    && (forall i, j | 0 <= i < j < |entries| :: entries[i].address != entries[j].address)
    && (forall a | a in accs :: exists i :: 0 <= i < |entries| && entries[i].address == a)
  }

  // ---- committing -------------------------------------------------------------------------

  predicate CodeDropped(acc: Account) {
    && CodeChanged(acc) && acc.dirtyCode.None? && acc.dirty.Some?
    && HashOf(acc.origin) != acc.dirty.value.codeHash && acc.dirty.value.codeHash.None?
  }

  function CommitAccounts(m: map<Address, Inner>, accs: map<Address, Account>): map<Address, Inner> {
    m + map a | a in accs && InnerChanged(accs[a].origin, accs[a].dirty) :: accs[a].dirty.value
  }

  function CommitCodes(m: map<Address, Bytes>, accs: map<Address, Account>): map<Address, Bytes> {
    (m - set a | a in accs && CodeDropped(accs[a]))
    + map a | a in accs && CodeChanged(accs[a]) && accs[a].dirtyCode.Some? :: accs[a].dirtyCode.value
  }

  function CommitStates(m: map<(Address, Key), Bytes>, accs: map<Address, Account>): map<(Address, Key), Bytes> {
    (m - set a, k |
           a in accs && k in accs[a].dirtyState && KeyChanged(accs[a], k) && accs[a].dirtyState[k].None? :: (a, k))
    + map a, k | a in accs && k in accs[a].dirtyState && KeyChanged(accs[a], k) && accs[a].dirtyState[k].Some?
        :: (a, k) := accs[a].dirtyState[k].value
  }

  function CommitTables(t: Tables, accs: map<Address, Account>): Tables {
    Tables(CommitAccounts(t.accounts, accs), CommitStates(t.states, accs), CommitCodes(t.codes, accs))
  }

  // ---- reverting ---------------------------------------------------------------------------

  function Restore<K, V>(m: map<K, V>, k: K, v: Option<V>): map<K, V> {
    if v.Some? then m[k := v.value] else m - {k}
  }

  function RestoreStates(m: map<(Address, Key), Bytes>, a: Address, prev: map<Key, Val>): map<(Address, Key), Bytes> {
    (m - set k | k in prev && prev[k].None? :: (a, k))
    + map k | k in prev && prev[k].Some? :: (a, k) := prev[k].value
  }

  function RevertEntry(t: Tables, e: JournalEntry): Tables {
    Tables(
      if e.accountChanged then Restore(t.accounts, e.address, e.prevAccount) else t.accounts,
      RestoreStates(t.states, e.address, e.prevStates),
      if e.codeChanged then Restore(t.codes, e.address, e.prevCode) else t.codes)
  }

  function RevertEntries(t: Tables, entries: seq<JournalEntry>): Tables
    decreases |entries|
  {
    if entries == [] then t else RevertEntries(RevertEntry(t, entries[0]), entries[1..])
  }

  // ---- reverting undoes committing ------------------------------------------------------------

  /** Wherever an account changed, its origin overlay is what the tables hold. */
  ghost predicate OriginsMatch(t: Tables, accs: map<Address, Account>) {
    && (forall a | a in accs && InnerChanged(accs[a].origin, accs[a].dirty) :: accs[a].origin == Lookup(t.accounts, a))
    && (forall a | a in accs && CodeChanged(accs[a]) :: accs[a].originCode == Lookup(t.codes, a))
    && (forall a, k | a in accs && k in accs[a].dirtyState && KeyChanged(accs[a], k) ::
          OriginVal(accs[a], k) == Lookup(t.states, (a, k)))
  }

  /** The part of the tables that concerns one address. */
  ghost predicate SameAt(t: Tables, u: Tables, a: Address) {
    && Lookup(t.accounts, a) == Lookup(u.accounts, a)
    && Lookup(t.codes, a) == Lookup(u.codes, a)
    && (forall k: Key :: Lookup(t.states, (a, k)) == Lookup(u.states, (a, k)))
  }

  lemma SameEverywhere(t: Tables, u: Tables)
    requires forall a: Address :: SameAt(t, u, a)
    ensures t == u
  {
    forall a: Address
      ensures a in t.accounts <==> a in u.accounts
      ensures a in t.accounts ==> t.accounts[a] == u.accounts[a]
      ensures a in t.codes <==> a in u.codes
      ensures a in t.codes ==> t.codes[a] == u.codes[a]
    {
      assert SameAt(t, u, a);
    }
    forall p: (Address, Key)
      ensures p in t.states <==> p in u.states
      ensures p in t.states ==> t.states[p] == u.states[p]
    {
      assert p == (p.0, p.1) && SameAt(t, u, p.0);
      assert Lookup(t.states, (p.0, p.1)) == Lookup(u.states, (p.0, p.1));
    }
    assert t.accounts == u.accounts && t.codes == u.codes && t.states == u.states;
  }

  lemma CommitStatesAt(m: map<(Address, Key), Bytes>, accs: map<Address, Account>, a: Address, k: Key)
    ensures Lookup(CommitStates(m, accs), (a, k)) ==
            if a in accs && KeyChanged(accs[a], k) then accs[a].dirtyState[k] else Lookup(m, (a, k))
  {
  }

  lemma CommitAccountsAt(m: map<Address, Inner>, accs: map<Address, Account>, a: Address)
    ensures Lookup(CommitAccounts(m, accs), a) ==
            if a in accs && InnerChanged(accs[a].origin, accs[a].dirty) then accs[a].dirty else Lookup(m, a)
  {
  }

  lemma CommitCodesAt(m: map<Address, Bytes>, accs: map<Address, Account>, a: Address)
    ensures Lookup(CommitCodes(m, accs), a) ==
            if a in accs && CodeChanged(accs[a]) && (accs[a].dirtyCode.Some? || CodeDropped(accs[a]))
            then accs[a].dirtyCode else Lookup(m, a)
  {
  }

  lemma RestoreStatesAt(m: map<(Address, Key), Bytes>, a: Address, prev: map<Key, Val>, c: Address, k: Key)
    ensures Lookup(RestoreStates(m, a, prev), (c, k)) ==
            if c == a && k in prev then prev[k] else Lookup(m, (c, k))
  {
  }

  /** Reverting an entry leaves every other address alone. */
  lemma RevertEntryElsewhere(t: Tables, e: JournalEntry, a: Address)
    requires a != e.address
    ensures SameAt(RevertEntry(t, e), t, a)
  {
    forall k: Key { RestoreStatesAt(t.states, e.address, e.prevStates, a, k); }
  }

  /** Committing leaves the addresses that were not flushed alone. */
  lemma CommitElsewhere(t: Tables, accs: map<Address, Account>, a: Address)
    requires a !in accs
    ensures SameAt(CommitTables(t, accs), t, a)
  {
    hide CommitStates, CommitCodes, CommitAccounts;
    CommitAccountsAt(t.accounts, accs, a);
    CommitCodesAt(t.codes, accs, a);
    forall k: Key { CommitStatesAt(t.states, accs, a, k); }
  }

  /** At its own address an entry undoes the commit. */
  lemma RevertEntryHere(t: Tables, u: Tables, accs: map<Address, Account>, a: Address)
    requires a in accs && OriginsMatch(t, accs) && SameAt(u, CommitTables(t, accs), a)
    ensures SameAt(RevertEntry(u, Journal(a, accs[a])), t, a)
  {
    hide CommitStates, CommitCodes, CommitAccounts, RestoreStates;
    var acc := accs[a];
    var e := Journal(a, acc);
    var r := RevertEntry(u, e);
    CommitAccountsAt(t.accounts, accs, a);
    CommitCodesAt(t.codes, accs, a);
    forall k: Key
      ensures Lookup(r.states, (a, k)) == Lookup(t.states, (a, k))
    {
      CommitStatesAt(t.states, accs, a, k);
      RestoreStatesAt(u.states, a, e.prevStates, a, k);
      assert Lookup(u.states, (a, k)) == Lookup(CommitTables(t, accs).states, (a, k));
    }
  }

  /** Entries are reverted one by one; each address is handled by its own entry. */
  lemma {:induction false} RevertEntriesAt(
      t: Tables, u: Tables, accs: map<Address, Account>, entries: seq<JournalEntry>, a: Address)
    requires OriginsMatch(t, accs)
    requires forall i | 0 <= i < |entries| ::
               entries[i].address in accs && entries[i] == Journal(entries[i].address, accs[entries[i].address])
    requires forall i, j | 0 <= i < j < |entries| :: entries[i].address != entries[j].address
    requires if exists i :: 0 <= i < |entries| && entries[i].address == a
             then SameAt(u, CommitTables(t, accs), a) else SameAt(u, t, a)
    ensures SameAt(RevertEntries(u, entries), t, a)
    decreases |entries|
  {
    hide CommitTables, SameAt, OriginsMatch, RevertEntry;
    if entries != [] {
      var e := entries[0];
      var v := RevertEntry(u, e);
      if e.address == a {
        RevertEntryHere(t, u, accs, a);
        assert forall i | 0 <= i < |entries[1..]| :: entries[1..][i].address != a;
      } else {
        RevertEntryElsewhere(u, e, a);
        SameAtTransitive(v, u, a);
        if i :| 0 <= i < |entries| && entries[i].address == a {
          assert entries[1..][i - 1].address == a;
        }
      }
      RevertEntriesAt(t, v, accs, entries[1..], a);
    }
  }

  lemma SameAtTransitive(t: Tables, u: Tables, a: Address)
    requires SameAt(t, u, a)
    ensures forall w :: SameAt(u, w, a) ==> SameAt(t, w, a)
  {
  }

  /** Whatever the order of the entries, reverting the journal of a committed block
      gives back exactly the tables from before the commit. */
  lemma RevertUndoesCommit(t: Tables, accs: map<Address, Account>, entries: seq<JournalEntry>)
    requires OriginsMatch(t, accs) && JournalsFor(accs, entries)
    ensures RevertEntries(CommitTables(t, accs), entries) == t
  {
    hide OriginsMatch, CommitTables;
    var u := CommitTables(t, accs);
    forall a: Address
      ensures SameAt(RevertEntries(u, entries), t, a)
    {
      if a in accs {
        assert SameAt(u, u, a);
      } else {
        CommitElsewhere(t, accs, a);
      }
      RevertEntriesAt(t, u, accs, entries, a);
    }
    SameEverywhere(RevertEntries(u, entries), t);
  }

  /** What the tables hold at the address of an entry once it is reverted. */
  lemma {:induction false} RevertedAt(t: Tables, entries: seq<JournalEntry>, i: nat)
    requires i < |entries|
    requires forall m, n | 0 <= m < n < |entries| :: entries[m].address != entries[n].address
    ensures var e, r := entries[i], RevertEntries(t, entries);
            && (e.accountChanged ==> Lookup(r.accounts, e.address) == e.prevAccount)
            && (e.codeChanged ==> Lookup(r.codes, e.address) == e.prevCode)
            && (forall k | k in e.prevStates :: Lookup(r.states, (e.address, k)) == e.prevStates[k])
    decreases |entries|
  {
    var v := RevertEntry(t, entries[0]);
    if i > 0 {
      RevertedAt(v, entries[1..], i - 1);
    } else {
      var e := entries[0];
      RevertedElsewhere(v, entries[1..], e.address);
      forall k | k in e.prevStates
        ensures Lookup(RevertEntries(v, entries[1..]).states, (e.address, k)) == e.prevStates[k]
      {
        RestoreStatesAt(t.states, e.address, e.prevStates, e.address, k);
      }
    }
  }

  lemma {:induction false} RevertedElsewhere(t: Tables, entries: seq<JournalEntry>, a: Address)
    requires forall i | 0 <= i < |entries| :: entries[i].address != a
    ensures SameAt(RevertEntries(t, entries), t, a)
    decreases |entries|
  {
    if entries != [] {
      RevertEntryElsewhere(t, entries[0], a);
      RevertedElsewhere(RevertEntry(t, entries[0]), entries[1..], a);
    }
  }

  /** A block can be rolled back exactly when its journal recorded what the tables held. */
  lemma RevertUndoesCommitIff(t: Tables, accs: map<Address, Account>, entries: seq<JournalEntry>)
    requires JournalsFor(accs, entries)
    ensures RevertEntries(CommitTables(t, accs), entries) == t <==> OriginsMatch(t, accs)
  {
    if OriginsMatch(t, accs) {
      RevertUndoesCommit(t, accs, entries);
    }
    if RevertEntries(CommitTables(t, accs), entries) == t {
      forall a | a in accs
        ensures InnerChanged(accs[a].origin, accs[a].dirty) ==> accs[a].origin == Lookup(t.accounts, a)
        ensures CodeChanged(accs[a]) ==> accs[a].originCode == Lookup(t.codes, a)
        ensures forall k | k in accs[a].dirtyState && KeyChanged(accs[a], k) ::
                  OriginVal(accs[a], k) == Lookup(t.states, (a, k))
      {
        hide CommitTables, RevertEntries;
        var i :| 0 <= i < |entries| && entries[i].address == a;
        RevertedAt(CommitTables(t, accs), entries, i);
        forall k | k in accs[a].dirtyState && KeyChanged(accs[a], k)
          ensures OriginVal(accs[a], k) == Lookup(t.states, (a, k))
        {
          assert k in entries[i].prevStates;
        }
      }
    }
  }

  /** A written value reaches the tables exactly when it is the stored value or
      differs from it as bytes: the empty value written over nil is lost. */
  lemma WriteCommittedIff(t: Tables, accs: map<Address, Account>, a: Address, k: Key)
    requires a in accs && k in accs[a].dirtyState && OriginVal(accs[a], k) == Lookup(t.states, (a, k))
    ensures Lookup(CommitTables(t, accs).states, (a, k)) == accs[a].dirtyState[k] <==>
            Lookup(t.states, (a, k)) == accs[a].dirtyState[k] ||
            !BytesEqual(Lookup(t.states, (a, k)), accs[a].dirtyState[k])
  {
    CommitStatesAt(t.states, accs, a, k);
  }
}
