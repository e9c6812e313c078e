/** The account cache of account_cache.go as an object: three maps filled account by
    account, in whatever order Go enumerates the flushed accounts. */
module AccountCache {
  import opened GoBytes
  import opened LedgerModel
  import opened BlockJournal
  import BlockLedger
  import JournalStore

  type Accounts = map<Address, Account>

  lemma InnerNext(m: map<Address, Inner>, accs: Accounts, a: Address, acc: Account)
    requires a !in accs
    ensures BlockLedger.CacheInner(m, accs[a := acc]) ==
            if acc.dirty.Some? then BlockLedger.CacheInner(m, accs)[a := acc.dirty.value]
            else BlockLedger.CacheInner(m, accs)
  {
  }

  lemma StatesAt(m: map<Address, map<Key, Val>>, accs: Accounts, b: Address)
    ensures Lookup(BlockLedger.CacheStates(m, accs), b) ==
            if b in accs && (b in m || accs[b].dirtyState != map[])
            then Some((if b in m then m[b] else map[]) + accs[b].dirtyState)
            else Lookup(m, b)
  {
  }

  lemma StatesNext(m: map<Address, map<Key, Val>>, accs: Accounts, a: Address, acc: Account)
    requires a !in accs
    ensures BlockLedger.CacheStates(m, accs[a := acc]) ==
            if a in m || acc.dirtyState != map[]
            then BlockLedger.CacheStates(m, accs)[a := (if a in m then m[a] else map[]) + acc.dirtyState]
            else BlockLedger.CacheStates(m, accs)
  {
    hide BlockLedger.CacheStates;
    var l, r := BlockLedger.CacheStates(m, accs[a := acc]), BlockLedger.CacheStates(m, accs);
    var w := if a in m || acc.dirtyState != map[] then r[a := (if a in m then m[a] else map[]) + acc.dirtyState] else r;
    forall b: Address
      ensures Lookup(l, b) == Lookup(w, b)
    {
      StatesAt(m, accs[a := acc], b);
      StatesAt(m, accs, b);
    }
    SameLookup(l, w);
  }

  /** One more account in the cache, in terms of what the cache holds for it. */
  function AddedOne(d: Cache, a: Address, acc: Account): Cache {
    var merged := (if a in d.states then d.states[a] else map[]) + acc.dirtyState;
    Cache(if acc.dirty.Some? then d.inner[a := acc.dirty.value] else d.inner,
          if a in d.states || merged != map[] then d.states[a := merged] else d.states,
          if BlockLedger.CodeCached(acc) then d.codes[a := acc.dirtyCode] else d.codes)
  }

  lemma AddNext(c: Cache, accs: Accounts, a: Address, acc: Account)
    requires a !in accs
    ensures BlockLedger.CacheAdd(c, accs[a := acc]) == AddedOne(BlockLedger.CacheAdd(c, accs), a, acc)
  {
    hide BlockLedger.CacheInner, BlockLedger.CacheStates, BlockLedger.CacheCodes, BlockLedger.CodeCached;
    InnerNext(c.inner, accs, a, acc);
    StatesNext(c.states, accs, a, acc);
    StatesAt(c.states, accs, a);
    CodesNext(c.codes, accs, a, acc);
    var none: map<Key, Val> := map[];
    assert none + acc.dirtyState == acc.dirtyState;
  }

  lemma CodesNext(m: map<Address, Val>, accs: Accounts, a: Address, acc: Account)
    requires a !in accs
    ensures BlockLedger.CacheCodes(m, accs[a := acc]) ==
            if BlockLedger.CodeCached(acc) then BlockLedger.CacheCodes(m, accs)[a := acc.dirtyCode]
            else BlockLedger.CacheCodes(m, accs)
  {
    hide BlockLedger.CodeCached;
  }

  lemma NothingAdded(c: Cache)
    ensures BlockLedger.CacheAdd(c, map[]) == c
  {
    hide CodeChanged;
    assert BlockLedger.CacheInner(c.inner, map[]) == c.inner;
    assert BlockLedger.CacheStates(c.states, map[]) == c.states;
    assert BlockLedger.CacheCodes(c.codes, map[]) == c.codes;
  }

  /** The dirty keys of an account on top of what is cached for it, in any order. */
  method AddStates(cached: map<Key, Val>, dirtyState: map<Key, Val>) returns (states: map<Key, Val>)
    ensures states == cached + dirtyState
  {
    states := cached;
    var rest := dirtyState.Keys;
    while rest != {}
      invariant rest <= dirtyState.Keys && states == cached + JournalStore.Done(dirtyState, rest)
      decreases |rest|
    {
      var k :| k in rest;
      states := states[k := dirtyState[k]];
      rest := rest - {k};
    }
    JournalStore.DoneAll(dirtyState);
  }

  class Lru {
    var innerAccounts: map<Address, Inner>
    var states: map<Address, map<Key, Val>>
    var codes: map<Address, Val>

    constructor ()
      ensures State() == BlockLedger.EMPTY_CACHE
    {
      innerAccounts, states, codes := map[], map[], map[];
    }

    function State(): Cache
      reads this
    {
      Cache(innerAccounts, states, codes)
    }

    method AddAccount(a: Address, acc: Account)
      modifies this
      ensures State() == AddedOne(old(State()), a, acc)
    {
      hide BlockLedger.CodeCached;
      if acc.dirty.Some? {
        innerAccounts := innerAccounts[a := acc.dirty.value];
      }
      var ok := a in states;
      var merged := AddStates(if ok then states[a] else map[], acc.dirtyState);
      if ok || merged != map[] {
        states := states[a := merged];
      }
      if BlockLedger.CodeCached(acc) {
        codes := codes[a := acc.dirtyCode];
      }
    }

    /** `add`, the accounts in any order. */
    method Add(accs: Accounts)
      modifies this
      ensures State() == BlockLedger.CacheAdd(old(State()), accs)
    {
      hide BlockLedger.CacheAdd, AddedOne;
      NothingAdded(State());
      JournalStore.DoneNone(accs);
      var rest := accs.Keys;
      while rest != {}
        invariant rest <= accs.Keys
        invariant State() == BlockLedger.CacheAdd(old(State()), JournalStore.Done(accs, rest))
        decreases |rest|
      {
        var a :| a in rest;
        JournalStore.DoneNext(accs, rest, a);
        AddNext(old(State()), JournalStore.Done(accs, rest), a, accs[a]);
        AddAccount(a, accs[a]);
        rest := rest - {a};
      }
      JournalStore.DoneAll(accs);
    }

    /** `getState`: a cached nil is found, and means absent. */
    method GetState(a: Address, k: Key) returns (v: Val, ok: bool)
      ensures forall t: Tables ::
                BaseState(Base(State(), t), a, k) == if ok then v else Lookup(t.states, (a, k))
    {
      if a in states && k in states[a] {
        return states[a][k], true;
      }
      return None, false;
    }

    method RmAccount(a: Address)
      modifies this`innerAccounts
      ensures innerAccounts == old(innerAccounts) - {a}
    {
      innerAccounts := innerAccounts - {a};
    }

    method Clear()
      modifies this
      ensures State() == BlockLedger.EMPTY_CACHE
    {
      innerAccounts, states, codes := map[], map[], map[];
    }
  }
}
