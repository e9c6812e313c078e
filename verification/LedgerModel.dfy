/** Value-level model of the state ledger: the account overlays of account.go,
    the cache of account_cache.go, the undo log of state_changer.go and the
    operations of state_accessor.go, as functions on immutable states.  The
    classes of SimpleLedger.dfy are proved to compute these functions. */
module LedgerModel {
  import opened GoBytes

  type Address = Bytes
  type Key = Bytes
  type TxHash = Bytes

  /** A collision-free code hash. */
  datatype Digest = Keccak(data: Bytes)

  datatype Inner = Inner(nonce: nat, balance: int, codeHash: Option<Digest>)

  /** One live account object.  `tracked` says whether the account logs its
      changes to the ledger's current undo log: it keeps the log it was given
      when it was loaded, while the ledger may have moved on to a new one. */
  datatype Account = Account(
    origin: Option<Inner>, dirty: Option<Inner>,
    originState: map<Key, Val>, dirtyState: map<Key, Val>,
    originCode: Val, dirtyCode: Val, tracked: bool)

  datatype Cache = Cache(
    inner: map<Address, Inner>,
    states: map<Address, map<Key, Val>>,
    codes: map<Address, Val>)

  /** The account, state and code tables of the key-value store. */
  datatype Tables = Tables(
    accounts: map<Address, Inner>,
    states: map<(Address, Key), Bytes>,
    codes: map<Address, Bytes>)

  /** What lies under the live accounts. */
  datatype Base = Base(cache: Cache, tables: Tables)

  datatype Change =
    | CreateObject(account: Address)
    | BalanceChange(account: Address, prevBalance: int)
    | NonceChange(account: Address, prevNonce: nat)
    | StorageChange(account: Address, key: Key, prevValue: Val)
    | CodeChange(account: Address, prevCode: Val)
    | RefundChange(prevRefund: nat)
    | AddLogChange(txHash: TxHash)
    | AddPreimageChange(hash: Bytes)
    | AccessAddressChange(address: Address)
    | AccessSlotChange(address: Address, slot: Bytes)

  datatype Revision = Revision(id: nat, index: nat)

  /** The ledger fields that are not per account. */
  datatype Extra = Extra(
    refund: nat, preimages: map<Bytes, Bytes>,
    logs: map<TxHash, seq<Bytes>>, logSize: nat, txHash: TxHash,
    access: map<Address, set<Bytes>>)

  datatype Ledger = Ledger(
    base: Base, accounts: map<Address, Account>,
    log: seq<Change>, dirties: map<Address, nat>,
    revisions: seq<Revision>, nextRevision: nat, extra: Extra)

  // ---- account.go ----------------------------------------------------------

  const NEW_ACCOUNT := Account(None, None, map[], map[], None, None, true)

  function CopyOrNew(o: Option<Inner>): Inner {
    if o.Some? then o.value else Inner(0, 0, None)
  }

  function Current(acc: Account): Option<Inner> {
    if acc.dirty.Some? then acc.dirty else acc.origin
  }

  function BalanceOf(o: Option<Inner>): int {
    if o.Some? then o.value.balance else 0
  }

  function NonceOf(o: Option<Inner>): nat {
    if o.Some? then o.value.nonce else 0
  }

  function HashOf(o: Option<Inner>): Option<Digest> {
    if o.Some? then o.value.codeHash else None
  }

  function MutableInner(acc: Account): Inner {
    if acc.dirty.Some? then acc.dirty.value else CopyOrNew(acc.origin)
  }

  function WithBalance(acc: Account, v: int): Account {
    acc.(dirty := Some(MutableInner(acc).(balance := v)))
  }

  function WithNonce(acc: Account, n: nat): Account {
    acc.(dirty := Some(MutableInner(acc).(nonce := n)))
  }

  function WithCode(acc: Account, code: Val): Account {
    acc.(dirty := Some(MutableInner(acc).(codeHash := Some(Keccak(Content(code))))), dirtyCode := code)
  }

  /** `GetState`: the value seen, given what the layers below hold. */
  function StateOf(acc: Account, below: Val, k: Key): Val {
    if k in acc.dirtyState then acc.dirtyState[k]
    else if k in acc.originState then acc.originState[k]
    else below
  }

  /** `GetState`: the origin overlay remembers what was read. */
  function LoadState(acc: Account, below: Val, k: Key): Account {
    if k in acc.dirtyState || k in acc.originState then acc
    else acc.(originState := acc.originState[k := below])
  }

  function WithState(acc: Account, k: Key, v: Val): Account {
    acc.(dirtyState := acc.dirtyState[k := v])
  }

  function CodeOf(acc: Account, below: Val): Val {
    if acc.dirtyCode.Some? then acc.dirtyCode
    else if acc.originCode.Some? then acc.originCode
    else if HashOf(Current(acc)).None? then None
    else below
  }

  function LoadCode(acc: Account, below: Val): Account {
    if acc.dirtyCode.Some? || acc.originCode.Some? || HashOf(Current(acc)).None? then acc
    else acc.(originCode := below, dirtyCode := below)
  }

  // ---- the layers under the accounts -----------------------------------------

  function BaseInner(b: Base, a: Address): Option<Inner> {
    if a in b.cache.inner then Some(b.cache.inner[a]) else Lookup(b.tables.accounts, a)
  }

  function BaseState(b: Base, a: Address, k: Key): Val {
    if a in b.cache.states && k in b.cache.states[a] then b.cache.states[a][k]
    else Lookup(b.tables.states, (a, k))
  }

  function BaseCode(b: Base, a: Address): Val {
    if a in b.cache.codes then b.cache.codes[a] else Lookup(b.tables.codes, a)
  }

  /** `GetAccount` on an address that is not live. */
  function LoadAccount(b: Base, a: Address): Option<Account> {
    if a in b.cache.inner then
      var inner := b.cache.inner[a];
      var code := if inner.codeHash.Some? then BaseCode(b, a) else None;
      Some(NEW_ACCOUNT.(origin := Some(inner), originCode := code, dirtyCode := code))
    else if a in b.tables.accounts then
      var inner := b.tables.accounts[a];
      var code := if inner.codeHash.Some? then Lookup(b.tables.codes, a) else None;
      Some(NEW_ACCOUNT.(origin := Some(inner), originCode := code, dirtyCode := code))
    else None
  }

  // ---- state_changer.go --------------------------------------------------------

  function Dirtied(e: Change): Option<Address> {
    match e
    case CreateObject(a) => Some(a)
    case BalanceChange(a, _) => Some(a)
    case NonceChange(a, _) => Some(a)
    case StorageChange(a, _, _) => Some(a)
    case CodeChange(a, _) => Some(a)
    case _ => None
  }

  function Bump(d: map<Address, nat>, e: Change): map<Address, nat> {
    match Dirtied(e)
    case None => d
    case Some(a) => d[a := (if a in d then d[a] else 0) + 1]
  }

  /** Decrement, and delete at zero. */
  function Unbump(d: map<Address, nat>, e: Change): map<Address, nat> {
    match Dirtied(e)
    case None => d
    case Some(a) => if a in d && d[a] > 1 then d[a := d[a] - 1] else d - {a}
  }

  function Append(s: Ledger, e: Change): Ledger {
    s.(log := s.log + [e], dirties := Bump(s.dirties, e))
  }

  /** An account appends to the log it holds, which is the ledger's only if the
      account is tracked. */
  function Record(s: Ledger, tracked: bool, e: Change): Ledger {
    if tracked then Append(s, e) else s
  }

  function WithAccount(s: Ledger, a: Address, acc: Account): Ledger {
    s.(accounts := s.accounts[a := acc])
  }

  // ---- state_accessor.go -------------------------------------------------------

  /** `GetOrCreateAccount`, hence every read and write of an account. */
  function Touch(s: Ledger, a: Address): Ledger {
    if a in s.accounts then s
    else match LoadAccount(s.base, a)
      case Some(acc) => WithAccount(s, a, acc)
      case None => Append(WithAccount(s, a, NEW_ACCOUNT), CreateObject(a))
  }

  function ReadState(s: Ledger, a: Address, k: Key): Ledger {
    var t := Touch(s, a);
    WithAccount(t, a, LoadState(t.accounts[a], BaseState(t.base, a, k), k))
  }

  function ReadCode(s: Ledger, a: Address): Ledger {
    var t := Touch(s, a);
    WithAccount(t, a, LoadCode(t.accounts[a], BaseCode(t.base, a)))
  }

  function SetBalance(s: Ledger, a: Address, v: int): Ledger {
    var t := Touch(s, a);
    var acc := t.accounts[a];
    WithAccount(Record(t, acc.tracked, BalanceChange(a, BalanceOf(Current(acc)))), a, WithBalance(acc, v))
  }

  function SetNonce(s: Ledger, a: Address, n: nat): Ledger {
    var t := Touch(s, a);
    var acc := t.accounts[a];
    WithAccount(Record(t, acc.tracked, NonceChange(a, NonceOf(Current(acc)))), a, WithNonce(acc, n))
  }

  function SetCode(s: Ledger, a: Address, code: Val): Ledger {
    var t := ReadCode(s, a);
    var acc := t.accounts[a];
    WithAccount(Record(t, acc.tracked, CodeChange(a, CodeOf(acc, BaseCode(t.base, a)))), a, WithCode(acc, code))
  }

  function SetState(s: Ledger, a: Address, k: Key, v: Val): Ledger {
    var t := ReadState(s, a, k);
    var acc := t.accounts[a];
    var prev := StateOf(acc, BaseState(t.base, a, k), k);
    WithAccount(Record(t, acc.tracked, StorageChange(a, k, prev)), a, WithState(acc, k, v))
  }

  /** Not logged, and the previous value is not read. */
  function AddState(s: Ledger, a: Address, k: Key, v: Val): Ledger {
    var t := Touch(s, a);
    WithAccount(t, a, WithState(t.accounts[a], k, v))
  }

  function AddRefund(s: Ledger, gas: nat): Ledger {
    var t := Append(s, RefundChange(s.extra.refund));
    t.(extra := t.extra.(refund := (s.extra.refund + gas) % UINT64))
  }

  /** Panics when the counter would fall below zero. */
  function SubRefund(s: Ledger, gas: nat): Ledger
    requires gas <= s.extra.refund
  {
    var t := Append(s, RefundChange(s.extra.refund));
    t.(extra := t.extra.(refund := s.extra.refund - gas))
  }

  function AddPreimage(s: Ledger, h: Bytes, image: Bytes): Ledger {
    if h in s.extra.preimages then s
    else
      var t := Append(s, AddPreimageChange(h));
      t.(extra := t.extra.(preimages := t.extra.preimages[h := image]))
  }

  function LogsOf(x: Extra, h: TxHash): seq<Bytes> {
    if h in x.logs then x.logs[h] else []
  }

  function AddLog(s: Ledger, entry: Bytes): Ledger {
    var t := Append(s, AddLogChange(s.extra.txHash));
    var x := t.extra;
    t.(extra := x.(logs := x.logs[x.txHash := LogsOf(x, x.txHash) + [entry]], logSize := x.logSize + 1))
  }

  function AddAccessAddress(s: Ledger, a: Address): Ledger {
    if a in s.extra.access then s
    else
      var t := Append(s, AccessAddressChange(a));
      t.(extra := t.extra.(access := t.extra.access[a := {}]))
  }

  function AddAccessSlot(s: Ledger, a: Address, slot: Bytes): Ledger {
    var t := AddAccessAddress(s, a);
    if slot in t.extra.access[a] then t
    else
      var u := Append(t, AccessSlotChange(a, slot));
      u.(extra := u.extra.(access := u.extra.access[a := u.extra.access[a] + {slot}]))
  }

  // ---- undo --------------------------------------------------------------------

  /** Undoing an account change looks the account up; when it is neither live nor
      stored the lookup would append to the log being undone, which that log's
      lock forbids.  `EntryLive` is the case in which the undo goes through, and
      undoing a creation finds nothing of the account below. */
  predicate EntryLive(b: Base, live: set<Address>, x: Extra, e: Change) {
    match e
    case CreateObject(a) => a in live && BaseInner(b, a).None?
    case AddLogChange(h) => LogsOf(x, h) != [] && x.logSize > 0
    case AccessSlotChange(a, slot) => a in x.access && slot in x.access[a]
    case _ => Dirtied(e).Some? ==> Dirtied(e).value in live
  }

  /** The undo of an entry that belongs to no account, where `EntryLive` holds. */
  function RevertExtra(x: Extra, e: Change): Extra {
    match e
    case RefundChange(prev) => x.(refund := prev)
    case AddLogChange(h) =>
      var logs := LogsOf(x, h);
      x.(logs := if |logs| <= 1 then x.logs - {h} else x.logs[h := logs[..|logs| - 1]],
         logSize := if x.logSize > 0 then x.logSize - 1 else 0)
    case AddPreimageChange(h) => x.(preimages := x.preimages - {h})
    case AccessAddressChange(a) => x.(access := x.access - {a})
    case AccessSlotChange(a, slot) =>
      if a in x.access then x.(access := x.access[a := x.access[a] - {slot}]) else x
    case _ => x
  }

  function RevertAccount(acc: Account, e: Change): Account {
    match e
    case BalanceChange(_, prev) => WithBalance(acc, prev)
    case NonceChange(_, prev) => WithNonce(acc, prev)
    case StorageChange(_, k, prev) => WithState(acc, k, prev)
    case CodeChange(_, prev) => WithCode(acc, prev)
    case _ => acc
  }

  function RevertChange(s: Ledger, e: Change): Ledger
    requires EntryLive(s.base, s.accounts.Keys, s.extra, e)
  {
    if e.CreateObject? then
      s.(accounts := s.accounts - {e.account},
         base := s.base.(cache := s.base.cache.(inner := s.base.cache.inner - {e.account})))
    else if Dirtied(e).Some? then
      WithAccount(s, e.account, RevertAccount(s.accounts[e.account], e))
    else
      s.(extra := RevertExtra(s.extra, e))
  }

  function RevertLast(s: Ledger): Ledger
    requires s.log != []
    requires EntryLive(s.base, s.accounts.Keys, s.extra, s.log[|s.log| - 1])
  {
    var e := s.log[|s.log| - 1];
    var t := RevertChange(s, e);
    t.(log := s.log[..|s.log| - 1], dirties := Unbump(s.dirties, e))
  }

  /** Every entry from `n` on can be undone, newest first. */
  predicate Revertible(s: Ledger, n: nat)
    decreases |s.log|
  {
    |s.log| > n ==>
      EntryLive(s.base, s.accounts.Keys, s.extra, s.log[|s.log| - 1]) && Revertible(RevertLast(s), n)
  }

  function RevertTo(s: Ledger, n: nat): Ledger
    requires Revertible(s, n)
    decreases |s.log|
  {
    if |s.log| <= n then s else RevertTo(RevertLast(s), n)
  }

  function Snapshot(s: Ledger): Ledger {
    s.(revisions := s.revisions + [Revision(s.nextRevision, |s.log|)], nextRevision := s.nextRevision + 1)
  }

  function RevertToSnapshot(s: Ledger, i: nat): Ledger
    requires i < |s.revisions| && Revertible(s, s.revisions[i].index)
  {
    RevertTo(s, s.revisions[i].index).(revisions := s.revisions[..i])
  }

  function Untracked(accounts: map<Address, Account>): map<Address, Account> {
    map a | a in accounts :: accounts[a].(tracked := false)
  }

  /** `Finalise`, that is `ClearChangerAndRefund`, at the end of a transaction. */
  function Finalise(s: Ledger): Ledger {
    var t := if s.log == [] then s
             else s.(log := [], dirties := map[], accounts := Untracked(s.accounts),
                     extra := s.extra.(refund := 0));
    t.(revisions := [], nextRevision := 0)
  }

  /** `PrepareEVM`, at the start of a transaction. */
  function PrepareTx(s: Ledger, h: TxHash): Ledger {
    s.(extra := s.extra.(txHash := h, access := map[]))
  }
}
