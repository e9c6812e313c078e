/** Flush, cache, commit, eviction and rollback around the state ledger: the whole
    layered store refines a flat map that remembers every committed block. */
module BlockLedger {
  import opened GoBytes
  import opened LedgerModel
  import opened LedgerView
  import opened LedgerSteps
  import opened LedgerUndo
  import opened FlatLedger
  import opened BlockJournal

  const EMPTY_CACHE := Cache(map[], map[], map[])

  // ---- account_cache.go --------------------------------------------------------------------

  function CacheInner(m: map<Address, Inner>, accs: map<Address, Account>): map<Address, Inner> {
    m + map a | a in accs && accs[a].dirty.Some? :: accs[a].dirty.value
  }

  function CacheStates(m: map<Address, map<Key, Val>>, accs: map<Address, Account>): map<Address, map<Key, Val>> {
    m + map a | a in accs && (a in m || accs[a].dirtyState != map[])
          :: (if a in m then m[a] else map[]) + accs[a].dirtyState
  }

  predicate CodeCached(acc: Account) {
    && CodeChanged(acc) && acc.dirty.Some?
    && (acc.origin.Some? ==> acc.dirty.value.codeHash != acc.origin.value.codeHash)
  }

  function CacheCodes(m: map<Address, Val>, accs: map<Address, Account>): map<Address, Val> {
    m + map a | a in accs && CodeCached(accs[a]) :: accs[a].dirtyCode
  }

  /** `AccountCache.add`. */
  function CacheAdd(c: Cache, accs: map<Address, Account>): Cache {
    Cache(CacheInner(c.inner, accs), CacheStates(c.states, accs), CacheCodes(c.codes, accs))
  }

  // ---- FlushDirtyData --------------------------------------------------------------------------

  /** The accounts that changed, with their origin code loaded. */
  function Flushed(s: Ledger): map<Address, Account> {
    map a | a in s.accounts && Modified(WithOriginCode(s.accounts[a], Lookup(s.base.tables.codes, a)))
      :: WithOriginCode(s.accounts[a], Lookup(s.base.tables.codes, a))
  }

  function Flush(s: Ledger): Ledger {
    s.(accounts := map[], base := s.base.(cache := CacheAdd(s.base.cache, Flushed(s))))
  }

  // ---- cache and tables -------------------------------------------------------------------------

  /** Every cached entry is what the tables hold. */
  ghost predicate CacheFits(c: Cache, t: Tables) {
    && (forall a | a in c.inner :: Some(c.inner[a]) == Lookup(t.accounts, a))
    && (forall a, k | a in c.states && k in c.states[a] :: c.states[a][k] == Lookup(t.states, (a, k)))
    && (forall a | a in c.codes :: c.codes[a] == Lookup(t.codes, a))
  }

  /** What still has to be committed is in the cache. */
  ghost predicate Covers(c: Cache, t: Tables, u: Tables) {
    && (forall a: Address :: Lookup(t.accounts, a) != Lookup(u.accounts, a) ==> a in c.inner)
    && (forall a: Address, k: Key ::
          Lookup(t.states, (a, k)) != Lookup(u.states, (a, k)) ==> a in c.states && k in c.states[a])
    && (forall a: Address :: Lookup(t.codes, a) != Lookup(u.codes, a) ==> a in c.codes && a in c.inner)
  }

  ghost predicate TablesOk(t: Tables) {
    BaseOk(Base(EMPTY_CACHE, t))
  }

  /** Cache over tables shows what the committed tables will show. */
  lemma FloorOfCovered(c: Cache, t: Tables, u: Tables)
    requires CacheFits(c, u) && Covers(c, t, u)
    ensures FloorOf(Base(c, t)) == FloorOf(Base(EMPTY_CACHE, u))
  {
    hide CacheFits, Covers, BaseInner, BaseCode, BaseState;
    var b, e := Base(c, t), Base(EMPTY_CACHE, u);
    forall a: Address
      ensures BaseInner(b, a) == BaseInner(e, a) && BaseCode(b, a) == BaseCode(e, a)
    {
      CoveredAt(c, t, u, a);
    }
    forall p: (Address, Key)
      ensures BaseState(b, p.0, p.1) == BaseState(e, p.0, p.1)
    {
      CoveredStateAt(c, t, u, p.0, p.1);
    }
    assert FloorOf(b).inner == FloorOf(e).inner;
    assert FloorOf(b).code == FloorOf(e).code;
    assert FloorOf(b).state == FloorOf(e).state;
  }

  lemma CoveredAt(c: Cache, t: Tables, u: Tables, a: Address)
    requires CacheFits(c, u) && Covers(c, t, u)
    ensures BaseInner(Base(c, t), a) == BaseInner(Base(EMPTY_CACHE, u), a)
    ensures BaseCode(Base(c, t), a) == BaseCode(Base(EMPTY_CACHE, u), a)
  {
  }

  lemma CoveredStateAt(c: Cache, t: Tables, u: Tables, a: Address, k: Key)
    requires CacheFits(c, u) && Covers(c, t, u)
    ensures BaseState(Base(c, t), a, k) == BaseState(Base(EMPTY_CACHE, u), a, k)
  {
  }

  lemma BaseOkOfCovered(c: Cache, t: Tables, u: Tables)
    requires CacheFits(c, u) && Covers(c, t, u) && TablesOk(u)
    ensures BaseOk(Base(c, t))
  {
    var b, e := Base(c, t), Base(EMPTY_CACHE, u);
    forall a: Address
      ensures a !in c.inner ==> BaseCode(b, a) == Lookup(t.codes, a)
      ensures HashMatches(BaseInner(b, a), BaseCode(b, a))
    {
      assert HashMatches(BaseInner(e, a), BaseCode(e, a));
    }
    forall a: Address, k: Key
      ensures Proper(BaseState(b, a, k))
    {
      assert Proper(BaseState(e, a, k));
    }
  }

  // ---- what a flush keeps -------------------------------------------------------------------------

  /** Nothing flushed is waiting to be committed. */
  ghost predicate Settled(s: Ledger) {
    Coherent(s) && CacheFits(s.base.cache, s.base.tables)
  }

  lemma SettledBase(b: Base, a: Address)
    requires CacheFits(b.cache, b.tables)
    ensures BaseInner(b, a) == Lookup(b.tables.accounts, a) && BaseCode(b, a) == Lookup(b.tables.codes, a)
    ensures forall k: Key :: BaseState(b, a, k) == Lookup(b.tables.states, (a, k))
  {
  }

  /** The flushed accounts are the modified ones, as they are. */
  lemma FlushedAt(s: Ledger, a: Address)
    requires Settled(s)
    ensures a in Flushed(s) <==> a in s.accounts && Modified(s.accounts[a])
    ensures a in Flushed(s) ==> Flushed(s)[a] == s.accounts[a]
  {
    SettledBase(s.base, a);
    if a in s.accounts { assert AccountOk(s.base, a, s.accounts[a]); }
  }

  lemma ProperEqual(v: Val, w: Val)
    requires Proper(v) && Proper(w) && BytesEqual(v, w)
    ensures v == w
  {
  }

  lemma KeyUnchanged(b: Base, a: Address, acc: Account, k: Key)
    requires BaseOk(b) && AccountOk(b, a, acc) && k in acc.dirtyState
    ensures OriginVal(acc, k) == BaseState(b, a, k)
    ensures !KeyChanged(acc, k) ==> acc.dirtyState[k] == BaseState(b, a, k)
  {
    assert Proper(BaseState(b, a, k));
    if !KeyChanged(acc, k) { ProperEqual(OriginVal(acc, k), acc.dirtyState[k]); }
  }

  /** Code that changed comes with a changed account that has another code hash. */
  lemma CodeChangedFacts(b: Base, a: Address, acc: Account)
    requires BaseOk(b) && AccountOk(b, a, acc)
    ensures CodeChanged(acc) ==> acc.dirtyCode.Some? && CodeCached(acc)
    ensures !CodeChanged(acc) ==> acc.dirtyCode == acc.originCode
  {
    assert HashMatches(BaseInner(b, a), BaseCode(b, a));
    assert HashMatches(Current(acc), acc.dirtyCode);
    if !CodeChanged(acc) { ProperEqual(acc.originCode, acc.dirtyCode); }
  }

  /** The committed tables hold, at each address, what the ledger shows there. */
  lemma CommittedAt(s: Ledger, a: Address)
    requires Settled(s)
    ensures var u := CommitTables(s.base.tables, Flushed(s));
            && Lookup(u.accounts, a) == InnerAt(s.base, s.accounts, a)
            && Lookup(u.codes, a) == (if a in s.accounts then s.accounts[a].dirtyCode else BaseCode(s.base, a))
  {
    hide CommitAccounts, CommitCodes, CommitStates, Flushed, BaseInner, BaseCode;
    var accs, t := Flushed(s), s.base.tables;
    FlushedAt(s, a);
    SettledBase(s.base, a);
    CommitAccountsAt(t.accounts, accs, a);
    CommitCodesAt(t.codes, accs, a);
    if a in s.accounts {
      CodeChangedFacts(s.base, a, s.accounts[a]);
    }
  }

  lemma CommittedStateAt(s: Ledger, a: Address, k: Key)
    requires Settled(s)
    ensures Lookup(CommitTables(s.base.tables, Flushed(s)).states, (a, k)) == StateAt(s.base, s.accounts, a, k)
  {
    hide CommitAccounts, CommitCodes, CommitStates, Flushed, BaseState;
    var accs, t := Flushed(s), s.base.tables;
    FlushedAt(s, a);
    SettledBase(s.base, a);
    CommitStatesAt(t.states, accs, a, k);
    if a in s.accounts {
      var acc := s.accounts[a];
      if k in acc.dirtyState { KeyUnchanged(s.base, a, acc, k); }
      if KeyChanged(acc, k) { assert k in PrevStates(acc); }
    }
  }

  lemma FlushOrigins(s: Ledger)
    requires Settled(s)
    ensures OriginsMatch(s.base.tables, Flushed(s))
  {
    hide Flushed, BaseInner, BaseCode, BaseState, KeyChanged, CodeChanged, InnerChanged;
    var accs, t := Flushed(s), s.base.tables;
    forall a | a in accs
      ensures accs[a].origin == Lookup(t.accounts, a) && accs[a].originCode == Lookup(t.codes, a)
      ensures forall k | k in accs[a].dirtyState :: OriginVal(accs[a], k) == Lookup(t.states, (a, k))
    {
      FlushedAt(s, a);
      SettledBase(s.base, a);
      assert AccountOk(s.base, a, s.accounts[a]);
      forall k | k in accs[a].dirtyState { KeyUnchanged(s.base, a, accs[a], k); }
    }
  }

  /** The journal of an account says, part by part, exactly what the commit changes in the
      tables, with what they held. */
  lemma JournalExact(s: Ledger, a: Address)
    requires Settled(s) && a in s.accounts
    ensures var t, u := s.base.tables, CommitTables(s.base.tables, Flushed(s));
            var e := Journal(a, s.accounts[a]);
            && e.address == a
            && (e.accountChanged <==> Lookup(t.accounts, a) != Lookup(u.accounts, a))
            && (e.codeChanged <==> Lookup(t.codes, a) != Lookup(u.codes, a))
            && (e.accountChanged ==> e.prevAccount == Lookup(t.accounts, a))
            && (e.codeChanged ==> e.prevCode == Lookup(t.codes, a))
            && (forall k: Key ::
                  && (k in e.prevStates <==> Lookup(t.states, (a, k)) != Lookup(u.states, (a, k)))
                  && (k in e.prevStates ==> e.prevStates[k] == Lookup(t.states, (a, k))))
  {
    hide CommitTables, Flushed, BaseInner, BaseCode, BaseState;
    var acc := s.accounts[a];
    CommittedAt(s, a);
    SettledBase(s.base, a);
    CodeChangedFacts(s.base, a, acc);
    forall k: Key
      ensures k in PrevStates(acc) <==>
              Lookup(s.base.tables.states, (a, k)) != Lookup(CommitTables(s.base.tables, Flushed(s)).states, (a, k))
      ensures k in PrevStates(acc) ==> OriginVal(acc, k) == Lookup(s.base.tables.states, (a, k))
    {
      CommittedStateAt(s, a, k);
      if k in acc.dirtyState { KeyUnchanged(s.base, a, acc, k); }
    }
  }

  /** An account is flushed exactly if the commit changes something of it. */
  lemma FlushedIff(s: Ledger, a: Address)
    requires Settled(s)
    ensures a in Flushed(s) <==> !SameAt(s.base.tables, CommitTables(s.base.tables, Flushed(s)), a)
  {
    hide CommitTables, Flushed, Journal;
    FlushedAt(s, a);
    if a in s.accounts {
      JournalExact(s, a);
      JournalShows(a, s.accounts[a]);
    } else {
      CommittedAt(s, a);
      SettledBase(s.base, a);
      forall k: Key { CommittedStateAt(s, a, k); }
    }
  }

  lemma JournalShows(a: Address, acc: Account)
    ensures var e := Journal(a, acc);
            Modified(acc) <==> e.accountChanged || e.codeChanged || exists k: Key :: k in e.prevStates
  {
    var e := Journal(a, acc);
    if PrevStates(acc) != map[] {
      var k :| k in PrevStates(acc);
      assert k in e.prevStates;
    }
  }

  lemma CommittedTablesOk(s: Ledger)
    requires Settled(s)
    ensures TablesOk(CommitTables(s.base.tables, Flushed(s)))
  {
    hide CommitTables, Flushed;
    var u := CommitTables(s.base.tables, Flushed(s));
    var e := Base(EMPTY_CACHE, u);
    forall a: Address
      ensures HashMatches(BaseInner(e, a), BaseCode(e, a))
    {
      CommittedAt(s, a);
      if a in s.accounts { assert AccountOk(s.base, a, s.accounts[a]); }
    }
    forall a: Address, k: Key
      ensures Proper(BaseState(e, a, k))
    {
      CommittedStateAt(s, a, k);
      assert Proper(BaseState(s.base, a, k));
      if a in s.accounts { assert AccountOk(s.base, a, s.accounts[a]); }
    }
  }

  /** What the cache holds after `add`. */
  lemma CacheAddAt(c: Cache, accs: map<Address, Account>, a: Address)
    ensures var d := CacheAdd(c, accs);
            && Lookup(d.inner, a) == (if a in accs && accs[a].dirty.Some? then accs[a].dirty else Lookup(c.inner, a))
            && Lookup(d.codes, a) ==
               (if a in accs && CodeCached(accs[a]) then Some(accs[a].dirtyCode) else Lookup(c.codes, a))
  {
  }

  function CachedState(c: Cache, a: Address, k: Key): Option<Val> {
    if a in c.states && k in c.states[a] then Some(c.states[a][k]) else None
  }

  lemma CacheAddStateAt(c: Cache, accs: map<Address, Account>, a: Address, k: Key)
    ensures CachedState(CacheAdd(c, accs), a, k) ==
            if a in accs && k in accs[a].dirtyState then Some(accs[a].dirtyState[k]) else CachedState(c, a, k)
  {
  }

  lemma FlushFitsAt(s: Ledger, a: Address)
    requires Settled(s)
    ensures var d, u := CacheAdd(s.base.cache, Flushed(s)), CommitTables(s.base.tables, Flushed(s));
            && (a in d.inner ==> Some(d.inner[a]) == Lookup(u.accounts, a))
            && (a in d.codes ==> d.codes[a] == Lookup(u.codes, a))
            && (Lookup(s.base.tables.accounts, a) != Lookup(u.accounts, a) ==> a in d.inner)
            && (Lookup(s.base.tables.codes, a) != Lookup(u.codes, a) ==> a in d.codes && a in d.inner)
  {
    hide CacheAdd, CommitTables, Flushed, BaseInner, BaseCode;
    CacheAddAt(s.base.cache, Flushed(s), a);
    CommittedAt(s, a);
    FlushedAt(s, a);
    SettledBase(s.base, a);
    var d := CacheAdd(s.base.cache, Flushed(s));
    assert a in d.inner <==> Lookup(d.inner, a).Some?;
    assert a in d.codes <==> Lookup(d.codes, a).Some?;
    if a in s.accounts {
      assert AccountOk(s.base, a, s.accounts[a]);
      CodeChangedFacts(s.base, a, s.accounts[a]);
    }
  }

  lemma FlushFitsStateAt(s: Ledger, a: Address, k: Key)
    requires Settled(s)
    ensures var d, u := CacheAdd(s.base.cache, Flushed(s)), CommitTables(s.base.tables, Flushed(s));
            && (CachedState(d, a, k).Some? ==> CachedState(d, a, k).value == Lookup(u.states, (a, k)))
            && (Lookup(s.base.tables.states, (a, k)) != Lookup(u.states, (a, k)) ==> CachedState(d, a, k).Some?)
  {
    hide CacheAdd, CommitTables, Flushed, BaseState;
    CacheAddStateAt(s.base.cache, Flushed(s), a, k);
    CommittedStateAt(s, a, k);
    FlushedAt(s, a);
    SettledBase(s.base, a);
    if a in s.accounts {
      var acc := s.accounts[a];
      assert AccountOk(s.base, a, acc);
      if k in acc.dirtyState {
        KeyUnchanged(s.base, a, acc, k);
        if KeyChanged(acc, k) { assert k in PrevStates(acc); }
      }
    }
  }

  lemma FlushFits(s: Ledger)
    requires Settled(s)
    ensures CacheFits(Flush(s).base.cache, CommitTables(s.base.tables, Flushed(s)))
    ensures Covers(Flush(s).base.cache, s.base.tables, CommitTables(s.base.tables, Flushed(s)))
  {
    hide CacheAdd, CommitTables, Flushed, Coherent;
    var d, u := Flush(s).base.cache, CommitTables(s.base.tables, Flushed(s));
    forall a: Address
      ensures a in d.inner ==> Some(d.inner[a]) == Lookup(u.accounts, a)
      ensures a in d.codes ==> d.codes[a] == Lookup(u.codes, a)
      ensures Lookup(s.base.tables.accounts, a) != Lookup(u.accounts, a) ==> a in d.inner
      ensures Lookup(s.base.tables.codes, a) != Lookup(u.codes, a) ==> a in d.codes && a in d.inner
    {
      FlushFitsAt(s, a);
    }
    forall a: Address, k: Key
      ensures a in d.states && k in d.states[a] ==> d.states[a][k] == Lookup(u.states, (a, k))
      ensures Lookup(s.base.tables.states, (a, k)) != Lookup(u.states, (a, k)) ==> a in d.states && k in d.states[a]
    {
      FlushFitsStateAt(s, a, k);
    }
  }

  /** With no live account the view is what lies below. */
  ghost function FloorView(fl: Floor, x: Extra): Obs
    requires forall a: Address :: a in fl.inner && a in fl.code
  {
    Obs(imap a: Address :: Basics(BalanceOf(fl.inner[a]), NonceOf(fl.inner[a]),
                                  if HashOf(fl.inner[a]).None? then None else fl.code[a]), fl.state, x)
  }

  lemma ViewWithoutAccounts(b: Base, x: Extra)
    ensures ViewOf(b, map[], x) == FloorView(FloorOf(b), x)
  {
    assert ViewOf(b, map[], x).acct == FloorView(FloorOf(b), x).acct;
    assert ViewOf(b, map[], x).state == FloorOf(b).state;
  }

  /** A flush changes nothing that can be observed, and the committed tables alone
      already show it. */
  lemma FlushView(s: Ledger)
    requires Settled(s)
    ensures View(Flush(s)) == View(s)
    ensures ViewOf(Base(EMPTY_CACHE, CommitTables(s.base.tables, Flushed(s))), map[], s.extra) == View(s)
  {
    hide CommitTables, Flushed, CacheAdd, CacheFits, Covers;
    var u := CommitTables(s.base.tables, Flushed(s));
    var e := Base(EMPTY_CACHE, u);
    FlushFits(s);
    FloorOfCovered(Flush(s).base.cache, s.base.tables, u);
    ViewWithoutAccounts(Flush(s).base, s.extra);
    ViewWithoutAccounts(e, s.extra);
    forall a: Address
      ensures BasicsAt(e, map[], a) == BasicsAt(s.base, s.accounts, a)
    {
      CommittedAt(s, a);
      CommittedBasics(s, a);
    }
    forall p: (Address, Key)
      ensures StateAt(e, map[], p.0, p.1) == StateAt(s.base, s.accounts, p.0, p.1)
    {
      CommittedStateAt(s, p.0, p.1);
    }
    assert ViewOf(e, map[], s.extra).acct == View(s).acct;
    assert ViewOf(e, map[], s.extra).state == View(s).state;
  }

  lemma CommittedBasics(s: Ledger, a: Address)
    requires Settled(s)
    ensures BasicsAt(Base(EMPTY_CACHE, CommitTables(s.base.tables, Flushed(s))), map[], a) ==
            BasicsAt(s.base, s.accounts, a)
  {
    hide CommitTables, Flushed;
    CommittedAt(s, a);
    if a in s.accounts {
      assert AccountOk(s.base, a, s.accounts[a]);
      AccountCode(s.base, a, s.accounts[a]);
    }
  }
}
