/** The state root of a block: what `FlushDirtyData` hashes, and that it does not depend
    on the order in which Go enumerates its maps (state_accessor.go, account.go). */
module StateRoot {
  import opened GoBytes
  import opened LedgerModel
  import opened BlockJournal
  import BlockLedger

  /** The foreign functions: hashing, account encoding, and the raw bytes of an address. */
  datatype Codec = Codec(sha: Bytes -> Bytes, marshal: Inner -> Bytes, raw: Address -> Bytes)

  // ---- sorting --------------------------------------------------------------------------------

  predicate Ascending(s: seq<Bytes>) {
    forall i, j | 0 <= i < j < |s| :: Less(s[i], s[j])
  }

  function Elements(s: seq<Bytes>): set<Bytes> {
    set x | x in s
  }

  function Insert(s: seq<Bytes>, k: Bytes): seq<Bytes> {
    if s == [] || Less(k, s[0]) then [k] + s else [s[0]] + Insert(s[1..], k)
  }

  lemma {:induction false} InsertElements(s: seq<Bytes>, k: Bytes)
    ensures Elements(Insert(s, k)) == Elements(s) + {k}
  {
    if s == [] || Less(k, s[0]) {
      assert Elements([k] + s) == {k} + Elements(s);
    } else {
      InsertElements(s[1..], k);
      assert s == [s[0]] + s[1..];
      assert Elements(s) == {s[0]} + Elements(s[1..]);
      assert Elements([s[0]] + Insert(s[1..], k)) == {s[0]} + Elements(Insert(s[1..], k));
    }
  }

  lemma {:induction false} InsertAscending(s: seq<Bytes>, k: Bytes)
    requires Ascending(s) && k !in s
    ensures Ascending(Insert(s, k))
  {
    if s == [] {
    } else if Less(k, s[0]) {
      var r := [k] + s;
      forall i, j | 0 <= i < j < |r|
        ensures Less(r[i], r[j])
      {
        if i == 0 && j > 1 {
          LessTransitive(k, s[0], s[j - 1]);
        }
      }
    } else {
      LessTotal(s[0], k);
      InsertAscending(s[1..], k);
      InsertElements(s[1..], k);
      var r := Insert(s[1..], k);
      forall j | 0 <= j < |r|
        ensures Less(s[0], r[j])
      {
        assert r[j] in Elements(r);
      }
    }
  }

  /** The canonical order of a set of keys. */
  ghost function SortedOf(keys: set<Bytes>): seq<Bytes> {
    if keys == {} then []
    else
      var k :| k in keys;
      Insert(SortedOf(keys - {k}), k)
  }

  lemma {:induction false} SortedOfIs(keys: set<Bytes>)
    ensures Ascending(SortedOf(keys)) && Elements(SortedOf(keys)) == keys
    decreases |keys|
  {
    if keys != {} {
      var k :| k in keys && SortedOf(keys) == Insert(SortedOf(keys - {k}), k);
      SortedOfIs(keys - {k});
      assert k !in Elements(SortedOf(keys - {k}));
      InsertElements(SortedOf(keys - {k}), k);
      InsertAscending(SortedOf(keys - {k}), k);
    }
  }

  lemma FirstIsLeast(s: seq<Bytes>, k: Bytes)
    requires Ascending(s) && k in s
    ensures s[0] == k || Less(s[0], k)
  {
  }

  /** A set of keys has one ascending order only. */
  lemma {:induction false} OneOrder(s: seq<Bytes>, t: seq<Bytes>)
    requires Ascending(s) && Ascending(t) && Elements(s) == Elements(t)
    ensures s == t
  {
    if s == [] {
      assert forall i | 0 <= i < |t| :: t[i] in Elements(t);
    } else {
      assert s[0] in Elements(s);
      assert t != [] && t[0] in Elements(t);
      FirstIsLeast(s, t[0]);
      FirstIsLeast(t, s[0]);
      if s[0] != t[0] {
        LessAsymmetric(s[0], t[0]);
      }
      TailElements(s);
      TailElements(t);
      OneOrder(s[1..], t[1..]);
      assert s == [s[0]] + s[1..] && t == [t[0]] + t[1..];
    }
  }

  lemma TailElements(s: seq<Bytes>)
    requires s != [] && Ascending(s)
    ensures Elements(s[1..]) == Elements(s) - {s[0]} && Ascending(s[1..])
  {
    LessIrreflexive(s[0]);
    assert s == [s[0]] + s[1..];
    assert s[0] !in s[1..];
  }

  lemma SortedIs(s: seq<Bytes>, keys: set<Bytes>)
    requires Ascending(s) && Elements(s) == keys
    ensures s == SortedOf(keys)
  {
    SortedOfIs(keys);
    OneOrder(s, SortedOf(keys));
  }

  /** `sort.Strings` on a list of distinct keys gives the canonical order of their set. */
  method SortStrings(list: seq<Bytes>) returns (sorted: seq<Bytes>)
    requires Distinct(list)
    ensures sorted == SortedOf(Elements(list))
  {
    sorted := [];
    for i := 0 to |list|
      invariant Ascending(sorted) && Elements(sorted) == Elements(list[..i])
    {
      assert list[..i + 1] == list[..i] + [list[i]];
      assert Elements(list[..i + 1]) == Elements(list[..i]) + {list[i]};
      assert list[i] !in Elements(list[..i]);
      assert list[i] !in Elements(sorted);
      InsertElements(sorted, list[i]);
      InsertAscending(sorted, list[i]);
      sorted := Insert(sorted, list[i]);
    }
    assert list[..|list|] == list;
    SortedIs(sorted, Elements(list));
  }

  // ---- what is hashed ------------------------------------------------------------------------------

  function ChangedKeys(acc: Account): set<Key> {
    set k | k in acc.dirtyState && KeyChanged(acc, k)
  }

  function KeyData(states: map<Key, Val>, keys: seq<Key>): Bytes {
    if keys == [] then []
    else
      var k := keys[|keys| - 1];
      KeyData(states, keys[..|keys| - 1]) + k + (if k in states then Content(states[k]) else [])
  }

  /** The changed keys and their values, in order. */
  ghost function StateData(acc: Account): Bytes {
    KeyData(acc.dirtyState, SortedOf(ChangedKeys(acc)))
  }

  function AccountData(c: Codec, a: Address, acc: Account, stateHash: Bytes): Bytes {
    c.raw(a) + (if acc.dirty.Some? then c.marshal(acc.dirty.value) else []) + stateHash
  }

  ghost function DirtyData(c: Codec, a: Address, acc: Account): Bytes {
    AccountData(c, a, acc, c.sha(StateData(acc)))
  }

  function Joined(data: map<Address, Bytes>, addrs: seq<Address>): Bytes {
    if addrs == [] then []
    else
      var a := addrs[|addrs| - 1];
      Joined(data, addrs[..|addrs| - 1]) + if a in data then data[a] else []
  }

  ghost function DataOf(c: Codec, accs: map<Address, Account>): map<Address, Bytes> {
    map a | a in accs :: DirtyData(c, a, accs[a])
  }

  ghost function Hashed(c: Codec, dirty: map<Address, Account>, prev: Bytes): Bytes {
    Joined(DataOf(c, dirty), SortedOf(dirty.Keys)) + prev
  }

  /** The root of a block with these dirty accounts on top of the root before it. */
  ghost function Root(c: Codec, dirty: map<Address, Account>, prev: Bytes): Bytes {
    c.sha(Hashed(c, dirty, prev))
  }

  // ---- the loops ------------------------------------------------------------------------------------

  method CollectKeys(states: map<Key, Val>, keys: seq<Key>) returns (data: Bytes)
    requires forall i | 0 <= i < |keys| :: keys[i] in states
    ensures data == KeyData(states, keys)
  {
    data := [];
    for i := 0 to |keys|
      invariant data == KeyData(states, keys[..i])
    {
      assert keys[..i + 1][..i] == keys[..i];
      data := data + keys[i];
      data := data + Content(states[keys[i]]);
    }
    assert keys[..|keys|] == keys;
  }

  /** What the enumeration has met so far. */
  ghost predicate Met(acc: Account, rest: set<Key>, prev: map<Key, Val>, keys: seq<Key>) {
    && rest <= acc.dirtyState.Keys && Distinct(keys)
    && Elements(keys) == prev.Keys
    && (forall k :: k in prev <==> k in acc.dirtyState && k !in rest && KeyChanged(acc, k))
    && (forall k | k in prev :: prev[k] == OriginVal(acc, k))
  }

  lemma MetNext(acc: Account, rest: set<Key>, prev: map<Key, Val>, keys: seq<Key>, k: Key)
    requires Met(acc, rest, prev, keys) && k in rest
    ensures if KeyChanged(acc, k) then Met(acc, rest - {k}, prev[k := OriginVal(acc, k)], keys + [k])
            else Met(acc, rest - {k}, prev, keys)
  {
    hide KeyChanged;
    if KeyChanged(acc, k) {
      assert k !in Elements(keys);
      assert Elements(keys + [k]) == Elements(keys) + {k};
    }
  }

  lemma MetAll(acc: Account, prev: map<Key, Val>, keys: seq<Key>)
    requires Met(acc, {}, prev, keys)
    ensures prev == PrevStates(acc) && Elements(keys) == ChangedKeys(acc)
  {
    hide KeyChanged;
  }

  /** `getStateJournalAndComputeHash`, over any enumeration of the dirty keys. */
  method StateJournal(c: Codec, acc: Account) returns (prev: map<Key, Val>, stateHash: Bytes)
    ensures prev == PrevStates(acc) && stateHash == c.sha(StateData(acc))
  {
    var keys: seq<Key> := [];
    prev := map[];
    var rest := acc.dirtyState.Keys;
    while rest != {}
      invariant Met(acc, rest, prev, keys)
      decreases |rest|
    {
      var k :| k in rest;
      MetNext(acc, rest, prev, keys, k);
      var origin := OriginVal(acc, k);
      if !BytesEqual(origin, acc.dirtyState[k]) {
        prev := prev[k := origin];
        keys := keys + [k];
      }
      rest := rest - {k};
    }
    MetAll(acc, prev, keys);
    keys := SortStrings(keys);
    SortedOfIs(ChangedKeys(acc));
    assert forall i | 0 <= i < |keys| :: keys[i] in Elements(keys);
    var data := CollectKeys(acc.dirtyState, keys);
    stateHash := c.sha(data);
  }

  /** `getJournalIfModified` and `getDirtyData` on an account whose origin code is loaded. */
  method JournalIfModified(c: Codec, a: Address, acc: Account) returns (entry: Option<JournalEntry>, data: Bytes)
    ensures entry == if Modified(acc) then Some(Journal(a, acc)) else None
    ensures data == DirtyData(c, a, acc)
  {
    var prev, stateHash := StateJournal(c, acc);
    data := AccountData(c, a, acc, stateHash);
    var e := JournalEntry(a, InnerChanged(acc.origin, acc.dirty), None, prev, CodeChanged(acc), None);
    if e.accountChanged {
      e := e.(prevAccount := acc.origin);
    }
    if e.codeChanged {
      e := e.(prevCode := acc.originCode);
    }
    if e.accountChanged || e.codeChanged || |prev| != 0 {
      entry := Some(e);
    } else {
      entry := None;
    }
  }

  function Loaded(s: Ledger, a: Address): Account
    requires a in s.accounts
  {
    WithOriginCode(s.accounts[a], Lookup(s.base.tables.codes, a))
  }

  /** The accounts flushed so far, in the order met. */
  ghost predicate Listed(
      s: Ledger, rest: set<Address>, dirty: map<Address, Account>, entries: seq<JournalEntry>, addrs: seq<Address>)
  {
    && rest <= s.accounts.Keys
    && (forall a :: a in dirty <==> a in s.accounts && a !in rest && Modified(Loaded(s, a)))
    && (forall a | a in dirty :: dirty[a] == Loaded(s, a))
    && |entries| == |addrs| && Distinct(addrs) && Elements(addrs) == dirty.Keys
    && (forall i | 0 <= i < |addrs| :: addrs[i] in dirty && entries[i] == Journal(addrs[i], dirty[addrs[i]]))
  }

  lemma ListedNext(
      s: Ledger, rest: set<Address>, dirty: map<Address, Account>, entries: seq<JournalEntry>, addrs: seq<Address>,
      a: Address)
    requires Listed(s, rest, dirty, entries, addrs) && a in rest
    ensures if Modified(Loaded(s, a))
            then Listed(s, rest - {a}, dirty[a := Loaded(s, a)], entries + [Journal(a, Loaded(s, a))], addrs + [a])
            else Listed(s, rest - {a}, dirty, entries, addrs)
  {
    hide Modified, Journal, Loaded;
    if Modified(Loaded(s, a)) {
      assert a !in Elements(addrs);
      assert Elements(addrs + [a]) == Elements(addrs) + {a};
    }
  }

  lemma FlushedIs(s: Ledger, dirty: map<Address, Account>)
    requires forall a :: a in dirty <==> a in s.accounts && Modified(Loaded(s, a))
    requires forall a | a in dirty :: dirty[a] == Loaded(s, a)
    ensures dirty == BlockLedger.Flushed(s)
  {
    hide Modified;
  }

  lemma DataNext(c: Codec, dirty: map<Address, Account>, a: Address, acc: Account)
    ensures DataOf(c, dirty[a := acc]) == DataOf(c, dirty)[a := DirtyData(c, a, acc)]
  {
    hide DirtyData;
  }

  lemma ListedAll(s: Ledger, dirty: map<Address, Account>, entries: seq<JournalEntry>, addrs: seq<Address>)
    requires Listed(s, {}, dirty, entries, addrs)
    ensures dirty == BlockLedger.Flushed(s) && JournalsFor(dirty, entries)
    ensures Distinct(addrs) && Elements(addrs) == dirty.Keys
  {
    hide Modified, PrevStates, InnerChanged, CodeChanged;
    FlushedIs(s, dirty);
    forall a | a in dirty
      ensures exists i :: 0 <= i < |entries| && entries[i].address == a
    {
      assert a in Elements(addrs);
      var i :| 0 <= i < |addrs| && addrs[i] == a;
      assert entries[i].address == a;
    }
  }

  lemma ListedNone(c: Codec, s: Ledger)
    ensures Listed(s, s.accounts.Keys, map[], [], []) && DataOf(c, map[]) == map[]
  {
  }

  lemma InAccounts(
      s: Ledger, rest: set<Address>, dirty: map<Address, Account>, entries: seq<JournalEntry>, addrs: seq<Address>,
      a: Address)
    requires Listed(s, rest, dirty, entries, addrs) && a in rest
    ensures a in s.accounts
  {
  }

  lemma AllHaveData(c: Codec, dirty: map<Address, Account>)
    ensures var addrs := SortedOf(dirty.Keys); forall i | 0 <= i < |addrs| :: addrs[i] in DataOf(c, dirty)
  {
    var addrs := SortedOf(dirty.Keys);
    SortedOfIs(dirty.Keys);
    assert forall i | 0 <= i < |addrs| :: addrs[i] in Elements(addrs);
  }

  method JoinData(data: map<Address, Bytes>, addrs: seq<Address>) returns (all: Bytes)
    requires forall i | 0 <= i < |addrs| :: addrs[i] in data
    ensures all == Joined(data, addrs)
  {
    all := [];
    for i := 0 to |addrs|
      invariant all == Joined(data, addrs[..i])
    {
      assert addrs[..i + 1][..i] == addrs[..i];
      all := all + data[addrs[i]];
    }
    assert addrs[..|addrs|] == addrs;
  }

  /** `FlushDirtyData`: whatever the order of enumeration, the dirty accounts and the root
      are the same, and the journals are those of the dirty accounts in some order. */
  method FlushDirtyData(c: Codec, s: Ledger, prevJnlHash: Bytes)
    returns (dirty: map<Address, Account>, journals: seq<JournalEntry>, root: Bytes)
    ensures dirty == BlockLedger.Flushed(s)
    ensures JournalsFor(dirty, journals)
    ensures root == Root(c, dirty, prevJnlHash)
  {
    hide Journal, Modified, JournalsFor, DataOf, DirtyData, Listed, WithOriginCode, BlockLedger.Flushed,
      SortedOf, Elements;
    ListedNone(c, s);
    dirty, journals := map[], [];
    var addrs: seq<Address>, data: map<Address, Bytes> := [], map[];
    var rest := s.accounts.Keys;
    while rest != {}
      invariant Listed(s, rest, dirty, journals, addrs)
      invariant data == DataOf(c, dirty)
      decreases |rest|
    {
      var a :| a in rest;
      InAccounts(s, rest, dirty, journals, addrs, a);
      ListedNext(s, rest, dirty, journals, addrs, a);
      var account := Loaded(s, a);
      DataNext(c, dirty, a, account);
      var entry, bytes := JournalIfModified(c, a, account);
      if entry.Some? {
        journals, addrs := journals + [entry.value], addrs + [a];
        data := data[a := bytes];
        dirty := dirty[a := account];
      }
      rest := rest - {a};
    }
    ListedAll(s, dirty, journals, addrs);
    addrs := SortStrings(addrs);
    AllHaveData(c, dirty);
    var all := JoinData(data, addrs);
    root := c.sha(all + prevJnlHash);
  }

  // ---- what the root covers -----------------------------------------------------------------------------

  ghost predicate Within(part: Bytes, whole: Bytes) {
    exists l: Bytes, r: Bytes :: |l| + |part| + |r| == |whole| && whole == l + part + r
  }

  lemma WithinLonger(part: Bytes, whole: Bytes, more: Bytes)
    requires Within(part, whole)
    ensures Within(part, whole + more)
  {
    var l: Bytes, r: Bytes :| |l| + |part| + |r| == |whole| && whole == l + part + r;
    assert whole + more == l + part + (r + more);
  }

  lemma {:induction false} KeyWithin(states: map<Key, Val>, keys: seq<Key>, i: nat)
    requires i < |keys| && keys[i] in states
    ensures Within(keys[i] + Content(states[keys[i]]), KeyData(states, keys))
  {
    var n := |keys| - 1;
    var last := keys[n];
    var front, tail := KeyData(states, keys[..n]), last + (if last in states then Content(states[last]) else []);
    assert KeyData(states, keys) == front + tail;
    if i < n {
      KeyWithin(states, keys[..n], i);
      WithinLonger(keys[i] + Content(states[keys[i]]), front, tail);
    } else {
      assert front + tail == front + tail + [];
    }
  }

  lemma {:induction false} DataWithin(data: map<Address, Bytes>, addrs: seq<Address>, i: nat)
    requires i < |addrs| && addrs[i] in data
    ensures Within(data[addrs[i]], Joined(data, addrs))
  {
    var n := |addrs| - 1;
    var last := addrs[n];
    var front, tail := Joined(data, addrs[..n]), if last in data then data[last] else [];
    assert Joined(data, addrs) == front + tail;
    if i < n {
      DataWithin(data, addrs[..n], i);
      WithinLonger(data[addrs[i]], front, tail);
    } else {
      assert front + tail == front + tail + [];
    }
  }

  /** Everything that a block changed is part of what the root hashes: the address, the record
      and the state hash of every dirty account, in that hash every changed key with its new
      value, and at the end the previous root. */
  lemma RootCovers(c: Codec, dirty: map<Address, Account>, prev: Bytes, a: Address)
    requires a in dirty
    ensures var acc, data := dirty[a], DirtyData(c, a, dirty[a]);
            var all := Joined(DataOf(c, dirty), SortedOf(dirty.Keys));
            && Root(c, dirty, prev) == c.sha(all + prev) && Within(data, all)
            && Within(c.raw(a), data) && Within(c.sha(StateData(acc)), data)
            && (acc.dirty.Some? ==> Within(c.marshal(acc.dirty.value), data))
            && (forall k | k in ChangedKeys(acc) :: Within(k + Content(acc.dirtyState[k]), StateData(acc)))
  {
    hide Within, ChangedKeys, Joined, DirtyData, StateData, SortedOf;
    SortedOfIs(dirty.Keys);
    var addrs := SortedOf(dirty.Keys);
    assert a in Elements(addrs);
    var i :| 0 <= i < |addrs| && addrs[i] == a;
    DataWithin(DataOf(c, dirty), addrs, i);
    PartsWithin(c, a, dirty[a]);
    forall k | k in ChangedKeys(dirty[a]) { ChangeWithin(dirty[a], k); }
  }

  lemma ChangeWithin(acc: Account, k: Key)
    requires k in ChangedKeys(acc)
    ensures k in acc.dirtyState && Within(k + Content(acc.dirtyState[k]), StateData(acc))
  {
    hide Within, KeyChanged;
    SortedOfIs(ChangedKeys(acc));
    var keys := SortedOf(ChangedKeys(acc));
    assert k in Elements(keys);
    var j :| 0 <= j < |keys| && keys[j] == k;
    KeyWithin(acc.dirtyState, keys, j);
  }

  lemma PartsWithin(c: Codec, a: Address, acc: Account)
    ensures var data := DirtyData(c, a, acc);
            && Within(c.raw(a), data) && Within(c.sha(StateData(acc)), data)
            && (acc.dirty.Some? ==> Within(c.marshal(acc.dirty.value), data))
  {
    hide StateData;
    var data, hash := DirtyData(c, a, acc), c.sha(StateData(acc));
    var record := if acc.dirty.Some? then c.marshal(acc.dirty.value) else [];
    assert data == [] + c.raw(a) + (record + hash);
    assert data == c.raw(a) + record + hash;
    assert data == (c.raw(a) + record) + hash + [];
  }

  // ---- what the root determines --------------------------------------------------------------------------

  ghost predicate FixedHash(c: Codec) {
    forall x: Bytes, y: Bytes :: |c.sha(x)| == |c.sha(y)|
  }

  /** Two byte strings with one hash. */
  predicate Collide(c: Codec, x: Bytes, y: Bytes) {
    x != y && c.sha(x) == c.sha(y)
  }

  /** No encoded record is the beginning of another. */
  ghost predicate Delimited(c: Codec) {
    forall x: Inner, y: Inner :: c.marshal(x) <= c.marshal(y) ==> c.marshal(x) == c.marshal(y)
  }

  /** Raw addresses have one length and tell the addresses apart. */
  predicate RawOk(c: Codec, addrs: set<Address>) {
    forall a, b | a in addrs && b in addrs ::
      |c.raw(a)| == |c.raw(b)| > 0 && (c.raw(a) == c.raw(b) ==> a == b)
  }

  /** Both accounts have a dirty record, or neither does. */
  predicate Alike(x: Account, y: Account) {
    x.dirty.Some? <==> y.dirty.Some?
  }

  /** The same encoded record and the same hash over the changed keys. */
  ghost predicate SameHashed(c: Codec, x: Account, y: Account) {
    && (x.dirty.Some? && y.dirty.Some? ==> c.marshal(x.dirty.value) == c.marshal(y.dirty.value))
    && c.sha(StateData(x)) == c.sha(StateData(y))
  }

  lemma Parts(p: Bytes, q: Bytes, u: Bytes, v: Bytes)
    requires |p| == |q| || |u| == |v|
    ensures p + u == q + v <==> p == q && u == v
  {
    if p + u == q + v {
      assert |p| == |q|;
      assert p == (p + u)[..|p|] && q == (q + v)[..|q|];
      assert u == (p + u)[|p|..] && v == (q + v)[|q|..];
    }
  }

  /** What an account hashes determines its record and the hash of its changed keys. */
  lemma DataDetermines(c: Codec, a: Address, x: Account, y: Account)
    requires FixedHash(c) && Alike(x, y)
    ensures DirtyData(c, a, x) == DirtyData(c, a, y) <==> SameHashed(c, x, y)
  {
    hide StateData;
    var rx := if x.dirty.Some? then c.marshal(x.dirty.value) else [];
    var ry := if y.dirty.Some? then c.marshal(y.dirty.value) else [];
    Parts(c.raw(a) + rx, c.raw(a) + ry, c.sha(StateData(x)), c.sha(StateData(y)));
    Parts(c.raw(a), c.raw(a), rx, ry);
  }

  /** Replacing the data of one account replaces it in place. */
  lemma {:induction false} JoinedReplace(data: map<Address, Bytes>, addrs: seq<Address>, a: Address, d: Bytes)
    returns (l: Bytes, r: Bytes)
    requires Distinct(addrs) && a in addrs && a in data
    ensures Joined(data, addrs) == l + data[a] + r && Joined(data[a := d], addrs) == l + d + r
  {
    var n := |addrs| - 1;
    var last, front := addrs[n], addrs[..n];
    assert addrs == front + [last];
    if last == a {
      assert a !in front;
      JoinedWithout(data, front, a, d);
      l, r := Joined(data, front), [];
    } else {
      l, r := JoinedReplace(data, front, a, d);
      var tail := if last in data then data[last] else [];
      assert l + data[a] + r + tail == l + data[a] + (r + tail);
      assert l + d + r + tail == l + d + (r + tail);
      r := r + tail;
    }
  }

  lemma {:induction false} JoinedWithout(data: map<Address, Bytes>, addrs: seq<Address>, a: Address, d: Bytes)
    requires a !in addrs
    ensures Joined(data[a := d], addrs) == Joined(data, addrs)
  {
    if addrs != [] {
      var n := |addrs| - 1;
      assert addrs[n] in addrs && forall x | x in addrs[..n] :: x in addrs;
      JoinedWithout(data, addrs[..n], a, d);
    }
  }

  lemma AscendingDistinct(s: seq<Bytes>)
    requires Ascending(s)
    ensures Distinct(s)
  {
    forall i, j | 0 <= i < j < |s|
      ensures s[i] != s[j]
    {
      LessIrreflexive(s[i]);
    }
  }

  /** Two blocks that differ in one account have the same root exactly if that account has
      the same encoded record and the same hash over its changed keys, or the hash collides. */
  lemma RootSeesAccount(c: Codec, dirty: map<Address, Account>, a: Address, y: Account, prev: Bytes)
    requires FixedHash(c) && a in dirty && Alike(dirty[a], y)
    requires !Collide(c, Hashed(c, dirty, prev), Hashed(c, dirty[a := y], prev))
    ensures Root(c, dirty, prev) == Root(c, dirty[a := y], prev) <==> SameHashed(c, dirty[a], y)
  {
    hide DirtyData, SameHashed, Joined, SortedOf;
    var addrs := SortedOf(dirty.Keys);
    assert dirty[a := y].Keys == dirty.Keys;
    SortedOfIs(dirty.Keys);
    AscendingDistinct(addrs);
    assert a in Elements(addrs);
    DataNext(c, dirty, a, y);
    var d := DirtyData(c, a, y);
    var l, r := JoinedReplace(DataOf(c, dirty), addrs, a, d);
    Parts(l + DirtyData(c, a, dirty[a]) + r, l + d + r, prev, prev);
    Parts(l + DirtyData(c, a, dirty[a]), l + d, r, r);
    Parts(l, l, DirtyData(c, a, dirty[a]), d);
    DataDetermines(c, a, dirty[a], y);
  }

  lemma {:induction false} JoinedFront(data: map<Address, Bytes>, addrs: seq<Address>)
    requires addrs != []
    ensures Joined(data, addrs) == (if addrs[0] in data then data[addrs[0]] else []) + Joined(data, addrs[1..])
  {
    var n := |addrs| - 1;
    if n > 0 {
      var first := if addrs[0] in data then data[addrs[0]] else [];
      var last := if addrs[n] in data then data[addrs[n]] else [];
      JoinedFront(data, addrs[..n]);
      assert addrs[..n][1..] == addrs[1..][..n - 1] && addrs[1..][n - 1] == addrs[n];
      assert first + Joined(data, addrs[1..n]) + last == first + (Joined(data, addrs[1..n]) + last);
      assert addrs[..n][1..] == addrs[1..n];
    } else {
      assert addrs[..0] == [] && addrs[1..] == [];
    }
  }

  lemma Prefixes(p: Bytes, q: Bytes, u: Bytes, v: Bytes)
    requires p + u == q + v
    ensures p <= q || q <= p
  {
    var n := if |p| <= |q| then |p| else |q|;
    assert p[..n] == (p + u)[..n] == (q + v)[..n] == q[..n];
  }

  lemma Delimits(c: Codec, x: Inner, y: Inner, u: Bytes, v: Bytes)
    requires Delimited(c) && c.marshal(x) + u == c.marshal(y) + v
    ensures c.marshal(x) == c.marshal(y) && u == v
  {
    Prefixes(c.marshal(x), c.marshal(y), u, v);
    Parts(c.marshal(x), c.marshal(y), u, v);
  }

  /** The data of one account can be read off the front of what is hashed. */
  lemma ReadOff(c: Codec, a: Address, x: Account, b: Address, y: Account, u: Bytes, v: Bytes)
    requires FixedHash(c) && Delimited(c) && RawOk(c, {a, b}) && (a == b ==> Alike(x, y))
    requires DirtyData(c, a, x) + u == DirtyData(c, b, y) + v
    ensures a == b && SameHashed(c, x, y) && u == v
  {
    hide StateData;
    var hx, hy := c.sha(StateData(x)), c.sha(StateData(y));
    var rx := if x.dirty.Some? then c.marshal(x.dirty.value) else [];
    var ry := if y.dirty.Some? then c.marshal(y.dirty.value) else [];
    assert DirtyData(c, a, x) + u == c.raw(a) + (rx + (hx + u));
    assert DirtyData(c, b, y) + v == c.raw(b) + (ry + (hy + v));
    Parts(c.raw(a), c.raw(b), rx + (hx + u), ry + (hy + v));
    if x.dirty.Some? {
      Delimits(c, x.dirty.value, y.dirty.value, hx + u, hy + v);
    }
    Parts(rx, ry, hx + u, hy + v);
    Parts(hx, hy, u, v);
  }

  ghost predicate Comparable(c: Codec, x: map<Address, Account>, y: map<Address, Account>) {
    RawOk(c, x.Keys + y.Keys) && forall a | a in x && a in y :: Alike(x[a], y[a])
  }

  lemma {:induction false} JoinedDetermines(
      c: Codec, x: map<Address, Account>, y: map<Address, Account>, s: seq<Address>, t: seq<Address>)
    requires FixedHash(c) && Delimited(c) && Comparable(c, x, y)
    requires (forall a | a in s :: a in x) && (forall a | a in t :: a in y)
    requires Joined(DataOf(c, x), s) == Joined(DataOf(c, y), t)
    ensures s == t && forall a | a in s :: SameHashed(c, x[a], y[a])
    decreases |s|
  {
    hide SameHashed, DirtyData, Joined;
    if s != [] && t != [] {
      var a, b := s[0], t[0];
      assert a in s && b in t;
      JoinedFront(DataOf(c, x), s);
      JoinedFront(DataOf(c, y), t);
      ReadOff(c, a, x[a], b, y[b], Joined(DataOf(c, x), s[1..]), Joined(DataOf(c, y), t[1..]));
      JoinedDetermines(c, x, y, s[1..], t[1..]);
      assert s == [a] + s[1..] && t == [b] + t[1..];
    } else {
      JoinedEmpty(c, x, s);
      JoinedEmpty(c, y, t);
    }
  }

  lemma JoinedEmpty(c: Codec, x: map<Address, Account>, s: seq<Address>)
    requires RawOk(c, x.Keys) && forall a | a in s :: a in x
    ensures Joined(DataOf(c, x), s) == [] <==> s == []
  {
    if s != [] {
      JoinedFront(DataOf(c, x), s);
      assert s[0] in s && |c.raw(s[0])| > 0;
    }
  }

  /** The root determines which accounts are dirty, the record and the state hash of each, and
      the previous root, as long as the same accounts have a dirty record and the hash does not
      collide. */
  lemma RootDetermines(
      c: Codec, x: map<Address, Account>, y: map<Address, Account>, prev: Bytes, prev': Bytes)
    requires FixedHash(c) && Delimited(c) && Comparable(c, x, y) && |prev| == |prev'|
    requires !Collide(c, Hashed(c, x, prev), Hashed(c, y, prev'))
    ensures Root(c, x, prev) == Root(c, y, prev') <==>
            x.Keys == y.Keys && prev == prev' && forall a | a in x :: SameHashed(c, x[a], y[a])
  {
    hide SameHashed, DirtyData, Joined, SortedOf;
    var s, t := SortedOf(x.Keys), SortedOf(y.Keys);
    SortedOfIs(x.Keys);
    SortedOfIs(y.Keys);
    assert (forall a | a in s :: a in Elements(s)) && (forall a | a in t :: a in Elements(t));
    Parts(Joined(DataOf(c, x), s), Joined(DataOf(c, y), t), prev, prev');
    if Root(c, x, prev) == Root(c, y, prev') {
      JoinedDetermines(c, x, y, s, t);
      assert forall a | a in x :: a in Elements(s);
    }
    if x.Keys == y.Keys && prev == prev' && forall a | a in x :: SameHashed(c, x[a], y[a]) {
      forall a | a in x
        ensures DirtyData(c, a, x[a]) == DirtyData(c, a, y[a])
      {
        DataDetermines(c, a, x[a], y[a]);
      }
      assert DataOf(c, x) == DataOf(c, y);
    }
  }

  /** Keys and values are hashed without a boundary between them: writing [2, 3] under [1] and
      writing [3] under [1, 2] leave the same state hash. */
  lemma KeysRunTogether(x: Account, y: Account)
    requires x == NEW_ACCOUNT.(dirtyState := map[[1] := Some([2, 3])])
    requires y == NEW_ACCOUNT.(dirtyState := map[[1, 2] := Some([3])])
    ensures StateData(x) == StateData(y) && !SameChanges(x, y)
  {
    OneChange(x, [1], [2, 3]);
    OneChange(y, [1, 2], [3]);
    var k: Key := [1];
    assert |k| == 1 && k in ChangedKeys(x) && k !in ChangedKeys(y);
  }

  lemma OneChange(acc: Account, k: Key, v: Bytes)
    requires acc.dirtyState == map[k := Some(v)] && acc.originState == map[] && v != []
    ensures ChangedKeys(acc) == {k} && StateData(acc) == k + v
  {
    SortedIs([k], {k});
    assert [k][..0] == [];
    assert KeyData(acc.dirtyState, [k]) == KeyData(acc.dirtyState, []) + k + v;
  }

  /** Where the changed keys and the lengths of their new values are the same, the bytes
      determine the values. */
  lemma StateDetermines(x: Account, y: Account)
    requires ChangedKeys(x) == ChangedKeys(y)
    requires forall k | k in ChangedKeys(x) :: |Content(x.dirtyState[k])| == |Content(y.dirtyState[k])|
    ensures StateData(x) == StateData(y) <==>
            forall k | k in ChangedKeys(x) :: Content(x.dirtyState[k]) == Content(y.dirtyState[k])
  {
    hide KeyChanged, SortedOf;
    var keys := SortedOf(ChangedKeys(x));
    SortedOfIs(ChangedKeys(x));
    assert forall i | 0 <= i < |keys| :: keys[i] in Elements(keys);
    assert forall k | k in ChangedKeys(x) :: k in Elements(keys);
    KeysDetermine(x.dirtyState, y.dirtyState, keys);
  }

  lemma {:induction false} KeysDetermine(x: map<Key, Val>, y: map<Key, Val>, keys: seq<Key>)
    requires forall i | 0 <= i < |keys| ::
               keys[i] in x && keys[i] in y && |Content(x[keys[i]])| == |Content(y[keys[i]])|
    ensures |KeyData(x, keys)| == |KeyData(y, keys)|
    ensures KeyData(x, keys) == KeyData(y, keys) <==>
            forall i | 0 <= i < |keys| :: Content(x[keys[i]]) == Content(y[keys[i]])
  {
    if keys != [] {
      var n := |keys| - 1;
      var k, front := keys[n], keys[..n];
      KeysDetermine(x, y, front);
      Parts(KeyData(x, front) + k, KeyData(y, front) + k, Content(x[k]), Content(y[k]));
      Parts(KeyData(x, front), KeyData(y, front), k, k);
      assert forall i | 0 <= i < n :: front[i] == keys[i];
    }
  }

  // ---- what the root depends on -----------------------------------------------------------------------

  /** The same dirty account record and the same changed keys with the same new values. */
  predicate SameChanges(x: Account, y: Account) {
    && x.dirty == y.dirty && ChangedKeys(x) == ChangedKeys(y)
    && forall k | k in ChangedKeys(x) :: Content(x.dirtyState[k]) == Content(y.dirtyState[k])
  }

  lemma {:induction false} SameKeyData(x: map<Key, Val>, y: map<Key, Val>, keys: seq<Key>)
    requires forall i | 0 <= i < |keys| ::
               keys[i] in x && keys[i] in y && Content(x[keys[i]]) == Content(y[keys[i]])
    ensures KeyData(x, keys) == KeyData(y, keys)
  {
    if keys != [] {
      SameKeyData(x, y, keys[..|keys| - 1]);
    }
  }

  lemma SameDirtyData(c: Codec, a: Address, x: Account, y: Account)
    requires SameChanges(x, y)
    ensures DirtyData(c, a, x) == DirtyData(c, a, y)
  {
    var keys := SortedOf(ChangedKeys(x));
    SortedOfIs(ChangedKeys(x));
    assert forall i | 0 <= i < |keys| :: keys[i] in Elements(keys);
    SameKeyData(x.dirtyState, y.dirtyState, keys);
  }

  /** The root depends only on the dirty accounts' records and changed keys, and on the
      previous root: not on unchanged keys, origins, or anything read. */
  lemma RootDependsOnlyOn(c: Codec, x: map<Address, Account>, y: map<Address, Account>, prev: Bytes)
    requires x.Keys == y.Keys && forall a | a in x :: SameChanges(x[a], y[a])
    ensures Root(c, x, prev) == Root(c, y, prev)
  {
    hide SameChanges, DirtyData;
    forall a | a in x
      ensures DirtyData(c, a, x[a]) == DirtyData(c, a, y[a])
    {
      SameDirtyData(c, a, x[a], y[a]);
    }
    assert DataOf(c, x) == DataOf(c, y);
  }
}
