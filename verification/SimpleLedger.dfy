/** The state ledger as the program has it: a ledger object, account objects that keep a
    reference to the undo log they were created with, and undo log objects. Every method is
    proved to take the one step of LedgerModel that has its name. */
module SimpleLedger {
  import opened GoBytes
  import opened LedgerModel
  import opened LedgerView
  import FlatLedger
  import LedgerUndo
  import UndoExact

  // ---- state_changer.go ---------------------------------------------------------------------

  class StateChanger {
    var changes: seq<Change>
    var dirties: map<Address, nat>

    constructor ()
      ensures changes == [] && dirties == map[]
    {
      changes, dirties := [], map[];
    }

    method Append(e: Change)
      modifies this
      ensures changes == old(changes) + [e] && dirties == Bump(old(dirties), e)
    {
      changes := changes + [e];
      if Dirtied(e).Some? {
        var addr := Dirtied(e).value;
        dirties := dirties[addr := (if addr in dirties then dirties[addr] else 0) + 1];
      }
    }

    /** The count of an address goes down by one, and the address goes at zero. */
    method Release(e: Change)
      modifies this`dirties
      ensures dirties == Unbump(old(dirties), e)
    {
      if Dirtied(e).Some? {
        var addr := Dirtied(e).value;
        if addr in dirties && dirties[addr] > 1 {
          dirties := dirties[addr := dirties[addr] - 1];
        } else {
          dirties := dirties - {addr};
        }
      }
    }
  }

  /** The account cache and the key-value store, shared by the ledger and its accounts. */
  class Storage {
    var cache: Cache
    var tables: Tables

    constructor (tables: Tables)
      ensures cache == Cache(map[], map[], map[]) && this.tables == tables
    {
      cache, this.tables := Cache(map[], map[], map[]), tables;
    }

    function Base(): Base
      reads this
    {
      LedgerModel.Base(cache, tables)
    }
  }

  // ---- account.go ---------------------------------------------------------------------------

  class SimpleAccount {
    const addr: Address
    const storage: Storage
    const changer: StateChanger
    var origin: Option<Inner>
    var dirty: Option<Inner>
    var originState: map<Key, Val>
    var dirtyState: map<Key, Val>
    var originCode: Val
    var dirtyCode: Val

    constructor (addr: Address, storage: Storage, changer: StateChanger)
      ensures this.addr == addr && this.storage == storage && this.changer == changer && Fields() == NEW_ACCOUNT
    {
      this.addr, this.storage, this.changer := addr, storage, changer;
      origin, dirty, originState, dirtyState, originCode, dirtyCode := None, None, map[], map[], None, None;
    }

    /** The overlays; which log the account holds is a matter for its ledger. */
    function Fields(): Account
      reads this
    {
      Account(origin, dirty, originState, dirtyState, originCode, dirtyCode, true)
    }

    method GetState(k: Key) returns (v: Val)
      modifies this
      ensures Fields() == LoadState(old(Fields()), BaseState(storage.Base(), addr, k), k)
      ensures v == StateOf(old(Fields()), BaseState(storage.Base(), addr, k), k)
    {
      if k in dirtyState {
        return dirtyState[k];
      }
      if k in originState {
        return originState[k];
      }
      v := BaseState(storage.Base(), addr, k);
      originState := originState[k := v];
    }

    method SetState(k: Key, v: Val)
      modifies this, changer
      ensures var below := BaseState(storage.Base(), addr, k);
              && Fields() == WithState(LoadState(old(Fields()), below, k), k, v)
              && changer.changes == old(changer.changes) + [StorageChange(addr, k, StateOf(old(Fields()), below, k))]
              && changer.dirties == Bump(old(changer.dirties), StorageChange(addr, k, StateOf(old(Fields()), below, k)))
    {
      var prev := GetState(k);
      dirtyState := dirtyState[k := v];
      changer.Append(StorageChange(addr, k, prev));
    }

    method AddState(k: Key, v: Val)
      modifies this`dirtyState
      ensures Fields() == WithState(old(Fields()), k, v)
    {
      dirtyState := dirtyState[k := v];
    }

    method Code() returns (code: Val)
      modifies this
      ensures Fields() == LoadCode(old(Fields()), BaseCode(storage.Base(), addr))
      ensures code == CodeOf(old(Fields()), BaseCode(storage.Base(), addr))
    {
      if dirtyCode.Some? {
        return dirtyCode;
      }
      if originCode.Some? {
        return originCode;
      }
      if HashOf(if dirty.Some? then dirty else origin).None? {
        return None;
      }
      code := BaseCode(storage.Base(), addr);
      originCode := code;
      dirtyCode := code;
    }

    method MakeDirty()
      modifies this`dirty
      ensures dirty == Some(MutableInner(old(Fields())))
    {
      if dirty.None? {
        dirty := Some(CopyOrNew(origin));
      }
    }

    method RestoreCode(code: Val)
      modifies this
      ensures Fields() == WithCode(old(Fields()), code)
    {
      MakeDirty();
      dirty := Some(dirty.value.(codeHash := Some(Keccak(Content(code)))));
      dirtyCode := code;
    }

    method SetCodeAndHash(code: Val)
      modifies this, changer
      ensures var below := BaseCode(storage.Base(), addr);
              && Fields() == WithCode(LoadCode(old(Fields()), below), code)
              && changer.changes == old(changer.changes) + [CodeChange(addr, CodeOf(old(Fields()), below))]
              && changer.dirties == Bump(old(changer.dirties), CodeChange(addr, CodeOf(old(Fields()), below)))
    {
      var prev := Code();
      changer.Append(CodeChange(addr, prev));
      RestoreCode(code);
    }

    method RestoreNonce(nonce: nat)
      modifies this`dirty
      ensures Fields() == LedgerModel.WithNonce(old(Fields()), nonce)
    {
      MakeDirty();
      dirty := Some(dirty.value.(nonce := nonce));
    }

    method SetNonce(nonce: nat)
      modifies this`dirty, changer
      ensures Fields() == LedgerModel.WithNonce(old(Fields()), nonce)
      ensures var e := NonceChange(addr, NonceOf(Current(old(Fields()))));
              changer.changes == old(changer.changes) + [e] && changer.dirties == Bump(old(changer.dirties), e)
    {
      changer.Append(NonceChange(addr, NonceOf(Current(Fields()))));
      RestoreNonce(nonce);
    }

    method RestoreBalance(balance: int)
      modifies this`dirty
      ensures Fields() == WithBalance(old(Fields()), balance)
    {
      MakeDirty();
      dirty := Some(dirty.value.(balance := balance));
    }

    method SetBalance(balance: int)
      modifies this`dirty, changer
      ensures Fields() == WithBalance(old(Fields()), balance)
      ensures var e := BalanceChange(addr, BalanceOf(Current(old(Fields()))));
              changer.changes == old(changer.changes) + [e] && changer.dirties == Bump(old(changer.dirties), e)
    {
      changer.Append(BalanceChange(addr, BalanceOf(Current(Fields()))));
      RestoreBalance(balance);
    }
  }

  // ---- state_accessor.go ----------------------------------------------------------------------

  lemma SetCodeLive(s: Ledger, a: Address, code: Val)
    requires a in s.accounts
    ensures var acc, below := s.accounts[a], BaseCode(s.base, a);
            LedgerModel.SetCode(s, a, code) ==
            WithAccount(Record(s, acc.tracked, CodeChange(a, CodeOf(acc, below))), a,
                        WithCode(LoadCode(acc, below), code))
  {
    hide BaseCode, Bump;
    var acc, below := s.accounts[a], BaseCode(s.base, a);
    var t := WithCode(LoadCode(acc, below), code);
    assert s.accounts[a := LoadCode(acc, below)][a := t] == s.accounts[a := t];
  }

  lemma SetStateLive(s: Ledger, a: Address, k: Key, v: Val)
    requires a in s.accounts
    ensures var acc, below := s.accounts[a], BaseState(s.base, a, k);
            LedgerModel.SetState(s, a, k, v) ==
            WithAccount(Record(s, acc.tracked, StorageChange(a, k, StateOf(acc, below, k))), a,
                        WithState(LoadState(acc, below, k), k, v))
  {
    hide BaseState, Bump;
    var acc, below := s.accounts[a], BaseState(s.base, a, k);
    var t := WithState(LoadState(acc, below, k), k, v);
    assert s.accounts[a := LoadState(acc, below, k)][a := t] == s.accounts[a := t];
  }

  lemma TrackedCode(acc: Account, tracked: bool, below: Val, code: Val)
    ensures WithCode(LoadCode(acc.(tracked := tracked), below), code) ==
            WithCode(LoadCode(acc, below), code).(tracked := tracked)
    ensures CodeOf(acc.(tracked := tracked), below) == CodeOf(acc, below)
  {
  }

  lemma TrackedState(acc: Account, tracked: bool, below: Val, k: Key, v: Val)
    ensures WithState(LoadState(acc.(tracked := tracked), below, k), k, v) ==
            WithState(LoadState(acc, below, k), k, v).(tracked := tracked)
    ensures StateOf(acc.(tracked := tracked), below, k) == StateOf(acc, below, k)
  {
  }

  /** Undoing an entry does not look at the log. */
  lemma RevertIgnoresLog(s: Ledger, e: Change, log: seq<Change>)
    requires EntryLive(s.base, s.accounts.Keys, s.extra, e)
    ensures LedgerModel.RevertChange(s.(log := log), e) == LedgerModel.RevertChange(s, e).(log := log)
    ensures LedgerModel.RevertChange(s, e).log == s.log && LedgerModel.RevertChange(s, e).dirties == s.dirties
    ensures LedgerModel.RevertChange(s, e).revisions == s.revisions
    ensures LedgerModel.RevertChange(s, e).nextRevision == s.nextRevision
  {
  }

  class SimpleLedger {
    const storage: Storage
    var accounts: map<Address, SimpleAccount>
    var changer: StateChanger
    var revisions: seq<Revision>
    var nextRevision: nat
    var extra: Extra

    constructor (storage: Storage, txHash: TxHash)
      ensures Valid() && fresh(changer)
      ensures State() == Ledger(storage.Base(), map[], [], map[], [], 0, Extra(0, map[], map[], 0, txHash, map[]))
    {
      this.storage, accounts, revisions, nextRevision := storage, map[], [], 0;
      changer := new StateChanger();
      extra := Extra(0, map[], map[], 0, txHash, map[]);
    }

    ghost function Objects(): set<SimpleAccount>
      reads this
    {
      set a | a in accounts :: accounts[a]
    }

    /** Every object the ledger can reach: an account's log need not be the ledger's. */
    ghost function Repr(): set<object>
      reads this
    {
      {this, storage, changer} + Objects() + Changers()
    }

    ghost function Changers(): set<StateChanger>
      reads this
    {
      set a | a in accounts :: accounts[a].changer
    }

    ghost predicate Valid()
      reads this
    {
      forall a | a in accounts :: accounts[a].addr == a && accounts[a].storage == storage
    }

    /** An account is tracked when the log it holds is the ledger's own. */
    ghost function Overlay(): map<Address, Account>
      reads this, Objects()
    {
      map a | a in accounts :: accounts[a].Fields().(tracked := accounts[a].changer == changer)
    }

    ghost function State(): Ledger
      reads this, storage, changer, Objects()
    {
      Ledger(storage.Base(), Overlay(), changer.changes, changer.dirties, revisions, nextRevision, extra)
    }

    // ---- how a change of one object shows in the state ---------------------------------------

    ghost function At(a: Address): Account
      requires a in accounts
      reads this, Objects()
    {
      accounts[a].Fields().(tracked := accounts[a].changer == changer)
    }

    twostate lemma OverlayAt(new a: Address)
      requires old(Valid()) && accounts == old(accounts) && changer == old(changer) && a in accounts
      requires forall b | b in accounts && b != a :: accounts[b].Fields() == old(accounts[b].Fields())
      ensures Overlay() == old(Overlay())[a := At(a)]
    {
    }

    /** A write to one account that was logged to the log the account holds. */
    twostate lemma LoggedWrite(new a: Address, new e: Change)
      requires old(Valid()) && accounts == old(accounts) && changer == old(changer) && a in accounts
      requires revisions == old(revisions) && nextRevision == old(nextRevision) && extra == old(extra)
      requires storage.Base() == old(storage.Base())
      requires forall b | b in accounts && b != a :: accounts[b].Fields() == old(accounts[b].Fields())
      requires accounts[a].changer.changes == old(accounts[a].changer.changes) + [e]
      requires accounts[a].changer.dirties == Bump(old(accounts[a].changer.dirties), e)
      requires changer != accounts[a].changer ==>
               changer.changes == old(changer.changes) && changer.dirties == old(changer.dirties)
      ensures State() == WithAccount(Record(old(State()), old(At(a)).tracked, e), a, At(a))
    {
      hide Bump;
      OverlayAt(a);
    }

    /** A write to one account that was not logged. */
    twostate lemma QuietWrite(new a: Address)
      requires old(Valid()) && accounts == old(accounts) && changer == old(changer) && a in accounts
      requires revisions == old(revisions) && nextRevision == old(nextRevision) && extra == old(extra)
      requires storage.Base() == old(storage.Base())
      requires forall b | b in accounts && b != a :: accounts[b].Fields() == old(accounts[b].Fields())
      requires changer.changes == old(changer.changes) && changer.dirties == old(changer.dirties)
      ensures State() == WithAccount(old(State()), a, At(a))
    {
      OverlayAt(a);
    }

    twostate lemma Adopted(new acc: SimpleAccount)
      requires old(Valid()) && acc.addr !in old(accounts) && acc.changer == changer == old(changer)
      requires accounts == old(accounts)[acc.addr := acc]
      requires forall b | b in old(accounts) :: accounts[b].Fields() == old(accounts[b].Fields())
      ensures Overlay() == old(Overlay())[acc.addr := acc.Fields()]
      ensures Objects() == old(Objects()) + {acc} && Changers() == old(Changers()) + {changer}
    {
      forall x: SimpleAccount
        ensures x in Objects() <==> x in old(Objects()) || x == acc
      {
        assert acc == accounts[acc.addr];
        assert forall b | b in old(accounts) :: accounts[b] == old(accounts)[b];
      }
      assert accounts[acc.addr].changer == changer;
      assert forall b | b in old(accounts) :: accounts[b] == old(accounts)[b];
    }

    /** A new account object enters the ledger. */
    method Adopt(acc: SimpleAccount)
      requires Valid() && acc.addr !in accounts && acc.storage == storage && acc.changer == changer
      modifies this`accounts
      ensures Valid() && Repr() == old(Repr()) + {acc} && accounts == old(accounts)[acc.addr := acc]
      ensures State() == WithAccount(old(State()), acc.addr, acc.Fields())
    {
      accounts := accounts[acc.addr := acc];
      Adopted(acc);
    }

    // ---- accounts ---------------------------------------------------------------------------

    /** The account object for what lies below, if anything does. */
    method Find(a: Address) returns (acc: SimpleAccount?)
      ensures acc == null <==> LoadAccount(storage.Base(), a).None?
      ensures acc != null ==>
              && fresh(acc) && acc.addr == a && acc.storage == storage && acc.changer == changer
              && Some(acc.Fields()) == LoadAccount(storage.Base(), a)
    {
      var base := storage.Base();
      if a in base.cache.inner {
        acc := new SimpleAccount(a, storage, changer);
        acc.origin := Some(base.cache.inner[a]);
        if base.cache.inner[a].codeHash.Some? {
          acc.originCode := BaseCode(base, a);
          acc.dirtyCode := acc.originCode;
        }
      } else if a in base.tables.accounts {
        acc := new SimpleAccount(a, storage, changer);
        acc.origin := Some(base.tables.accounts[a]);
        if base.tables.accounts[a].codeHash.Some? {
          acc.originCode := Lookup(base.tables.codes, a);
          acc.dirtyCode := acc.originCode;
        }
      } else {
        acc := null;
      }
    }

    method Create(a: Address) returns (acc: SimpleAccount)
      requires Valid() && a !in accounts
      modifies this`accounts, changer
      ensures Valid() && a in accounts && accounts[a] == acc && fresh(acc) && Repr() == old(Repr()) + {acc}
      ensures State() == Append(WithAccount(old(State()), a, NEW_ACCOUNT), CreateObject(a))
    {
      hide Bump;
      acc := new SimpleAccount(a, storage, changer);
      changer.Append(CreateObject(a));
      accounts := accounts[a := acc];
      Adopted(acc);
    }

    method GetOrCreateAccount(a: Address) returns (acc: SimpleAccount)
      requires Valid()
      modifies this`accounts, changer
      ensures Valid() && a in accounts && accounts[a] == acc && fresh(Repr() - old(Repr()))
      ensures State() == Touch(old(State()), a)
    {
      hide LoadAccount, Append;
      if a in accounts {
        return accounts[a];
      }
      var found := Find(a);
      if found != null {
        acc := found;
        Adopt(acc);
      } else {
        acc := Create(a);
      }
    }

    // ---- reads and writes of accounts -----------------------------------------------------------

    method WriteBalance(a: Address, v: int)
      requires Valid() && a in accounts
      modifies Repr()
      ensures Valid() && Repr() == old(Repr())
      ensures State() == LedgerModel.SetBalance(old(State()), a, v)
    {
      hide Bump;
      ghost var e := BalanceChange(a, BalanceOf(Current(At(a))));
      accounts[a].SetBalance(v);
      LoggedWrite(a, e);
    }

    method SetBalance(a: Address, v: int)
      requires Valid()
      modifies Repr()
      ensures Valid() && fresh(Repr() - old(Repr()))
      ensures State() == LedgerModel.SetBalance(old(State()), a, v)
    {
      var acc := GetOrCreateAccount(a);
      WriteBalance(a, v);
    }

    method WriteNonce(a: Address, n: nat)
      requires Valid() && a in accounts
      modifies Repr()
      ensures Valid() && Repr() == old(Repr())
      ensures State() == LedgerModel.SetNonce(old(State()), a, n)
    {
      hide Bump;
      ghost var e := NonceChange(a, NonceOf(Current(At(a))));
      accounts[a].SetNonce(n);
      LoggedWrite(a, e);
    }

    method SetNonce(a: Address, n: nat)
      requires Valid()
      modifies Repr()
      ensures Valid() && fresh(Repr() - old(Repr()))
      ensures State() == LedgerModel.SetNonce(old(State()), a, n)
    {
      var acc := GetOrCreateAccount(a);
      WriteNonce(a, n);
    }

    method WriteCode(a: Address, code: Val)
      requires Valid() && a in accounts
      modifies Repr()
      ensures Valid() && Repr() == old(Repr())
      ensures State() == LedgerModel.SetCode(old(State()), a, code)
    {
      hide Bump, BaseCode, LedgerModel.SetCode, LoadCode, WithCode;
      SetCodeLive(State(), a, code);
      ghost var e := CodeChange(a, CodeOf(At(a), BaseCode(storage.Base(), a)));
      ghost var tracked := At(a).tracked;
      accounts[a].SetCodeAndHash(code);
      TrackedCode(old(accounts[a].Fields()), tracked, BaseCode(storage.Base(), a), code);
      LoggedWrite(a, e);
    }

    method SetCode(a: Address, code: Val)
      requires Valid()
      modifies Repr()
      ensures Valid() && fresh(Repr() - old(Repr()))
      ensures State() == LedgerModel.SetCode(old(State()), a, code)
    {
      var acc := GetOrCreateAccount(a);
      WriteCode(a, code);
    }

    method WriteState(a: Address, k: Key, v: Val)
      requires Valid() && a in accounts
      modifies Repr()
      ensures Valid() && Repr() == old(Repr())
      ensures State() == LedgerModel.SetState(old(State()), a, k, v)
    {
      hide Bump, BaseState, LedgerModel.SetState, LoadState, WithState;
      SetStateLive(State(), a, k, v);
      ghost var e := StorageChange(a, k, StateOf(At(a), BaseState(storage.Base(), a, k), k));
      ghost var tracked := At(a).tracked;
      accounts[a].SetState(k, v);
      TrackedState(old(accounts[a].Fields()), tracked, BaseState(storage.Base(), a, k), k, v);
      LoggedWrite(a, e);
    }

    method SetState(a: Address, k: Key, v: Val)
      requires Valid()
      modifies Repr()
      ensures Valid() && fresh(Repr() - old(Repr()))
      ensures State() == LedgerModel.SetState(old(State()), a, k, v)
    {
      var acc := GetOrCreateAccount(a);
      WriteState(a, k, v);
    }

    method LoadStateOf(a: Address, k: Key) returns (v: Val)
      requires Valid() && a in accounts
      modifies Repr()
      ensures Valid() && Repr() == old(Repr())
      ensures State() == ReadState(old(State()), a, k)
      ensures v == StateAt(old(State()).base, old(State()).accounts, a, k)
    {
      hide BaseState;
      v := accounts[a].GetState(k);
      QuietWrite(a);
    }

    method GetState(a: Address, k: Key) returns (v: Val)
      requires Valid()
      modifies Repr()
      ensures Valid() && fresh(Repr() - old(Repr()))
      ensures State() == ReadState(old(State()), a, k)
      ensures var t := Touch(old(State()), a); v == StateAt(t.base, t.accounts, a, k)
    {
      var acc := GetOrCreateAccount(a);
      v := LoadStateOf(a, k);
    }

    method LoadCodeOf(a: Address) returns (code: Val)
      requires Valid() && a in accounts
      modifies Repr()
      ensures Valid() && Repr() == old(Repr())
      ensures State() == ReadCode(old(State()), a)
      ensures code == CodeAt(old(State()).base, old(State()).accounts, a)
    {
      hide BaseCode;
      code := accounts[a].Code();
      QuietWrite(a);
    }

    method GetCode(a: Address) returns (code: Val)
      requires Valid()
      modifies Repr()
      ensures Valid() && fresh(Repr() - old(Repr()))
      ensures State() == ReadCode(old(State()), a)
      ensures var t := Touch(old(State()), a); code == CodeAt(t.base, t.accounts, a)
    {
      var acc := GetOrCreateAccount(a);
      code := LoadCodeOf(a);
    }

    method StoreUnlogged(a: Address, k: Key, v: Val)
      requires Valid() && a in accounts
      modifies Repr()
      ensures Valid() && Repr() == old(Repr())
      ensures State() == LedgerModel.AddState(old(State()), a, k, v)
    {
      accounts[a].AddState(k, v);
      QuietWrite(a);
    }

    method AddState(a: Address, k: Key, v: Val)
      requires Valid()
      modifies Repr()
      ensures Valid() && fresh(Repr() - old(Repr()))
      ensures State() == LedgerModel.AddState(old(State()), a, k, v)
    {
      var acc := GetOrCreateAccount(a);
      StoreUnlogged(a, k, v);
    }

    // ---- the other fields ------------------------------------------------------------------------

    twostate lemma SameOverlay()
      requires accounts == old(accounts) && changer == old(changer)
      requires forall b | b in accounts :: accounts[b].Fields() == old(accounts[b].Fields())
      ensures Overlay() == old(Overlay()) && Objects() == old(Objects()) && Changers() == old(Changers())
    {
    }

    method Note(e: Change)
      requires Valid()
      modifies changer
      ensures State() == Append(old(State()), e)
    {
      hide Bump;
      changer.Append(e);
      SameOverlay();
    }

    method SetExtra(x: Extra)
      requires Valid()
      modifies this`extra
      ensures Valid() && Repr() == old(Repr()) && State() == old(State()).(extra := x)
    {
      extra := x;
      SameOverlay();
    }

    method AddRefund(gas: nat)
      requires Valid()
      modifies this`extra, changer
      ensures Valid() && Repr() == old(Repr())
      ensures State() == LedgerModel.AddRefund(old(State()), gas)
    {
      hide Bump;
      Note(RefundChange(extra.refund));
      SetExtra(extra.(refund := (extra.refund + gas) % UINT64));
    }

    method SubRefund(gas: nat)
      requires Valid() && gas <= extra.refund
      modifies this`extra, changer
      ensures Valid() && Repr() == old(Repr())
      ensures State() == LedgerModel.SubRefund(old(State()), gas)
    {
      hide Bump;
      Note(RefundChange(extra.refund));
      SetExtra(extra.(refund := extra.refund - gas));
    }

    method AddPreimage(h: Bytes, image: Bytes)
      requires Valid()
      modifies this`extra, changer
      ensures Valid() && Repr() == old(Repr())
      ensures State() == LedgerModel.AddPreimage(old(State()), h, image)
    {
      hide Bump;
      if h !in extra.preimages {
        Note(AddPreimageChange(h));
        SetExtra(extra.(preimages := extra.preimages[h := image]));
      }
    }

    method AddLog(entry: Bytes)
      requires Valid()
      modifies this`extra, changer
      ensures Valid() && Repr() == old(Repr())
      ensures State() == LedgerModel.AddLog(old(State()), entry)
    {
      hide Bump;
      Note(AddLogChange(extra.txHash));
      var logs := LogsOf(extra, extra.txHash) + [entry];
      SetExtra(extra.(logs := extra.logs[extra.txHash := logs], logSize := extra.logSize + 1));
    }

    method AddAddressToAccessList(a: Address)
      requires Valid()
      modifies this`extra, changer
      ensures Valid() && Repr() == old(Repr())
      ensures State() == AddAccessAddress(old(State()), a)
    {
      hide Bump;
      if a !in extra.access {
        Note(AccessAddressChange(a));
        SetExtra(extra.(access := extra.access[a := {}]));
      }
    }

    method AddSlotToAccessList(a: Address, slot: Bytes)
      requires Valid()
      modifies this`extra, changer
      ensures Valid() && Repr() == old(Repr())
      ensures State() == AddAccessSlot(old(State()), a, slot)
    {
      hide Bump;
      AddAddressToAccessList(a);
      if slot !in extra.access[a] {
        Note(AccessSlotChange(a, slot));
        SetExtra(extra.(access := extra.access[a := extra.access[a] + {slot}]));
      }
    }

    // ---- snapshots ---------------------------------------------------------------------------------

    method Snapshot() returns (id: nat)
      requires Valid()
      modifies this`revisions, this`nextRevision
      ensures Valid() && Repr() == old(Repr())
      ensures id == old(nextRevision) && State() == LedgerModel.Snapshot(old(State()))
    {
      id := nextRevision;
      nextRevision := nextRevision + 1;
      revisions := revisions + [Revision(id, |changer.changes|)];
      SameOverlay();
    }

    /** The binary search of `sort.Search`: the first revision whose id is not below. */
    method Search(id: nat) returns (idx: nat)
      requires RevisionsOk(revisions, nextRevision, |changer.changes|)
      ensures idx <= |revisions|
      ensures forall i | 0 <= i < idx :: revisions[i].id < id
      ensures forall i | idx <= i < |revisions| :: revisions[i].id >= id
    {
      var lo, hi := 0, |revisions|;
      while lo < hi
        invariant 0 <= lo <= hi <= |revisions|
        invariant forall i | 0 <= i < lo :: revisions[i].id < id
        invariant forall i | hi <= i < |revisions| :: revisions[i].id >= id
      {
        var mid := (lo + hi) / 2;
        if revisions[mid].id < id {
          lo := mid + 1;
        } else {
          hi := mid;
        }
      }
      idx := lo;
    }

    twostate lemma Dropped(new a: Address)
      requires old(Valid()) && a in old(accounts) && accounts == old(accounts) - {a} && changer == old(changer)
      requires forall b | b in accounts :: accounts[b].Fields() == old(accounts[b].Fields())
      ensures Overlay() == old(Overlay()) - {a} && Objects() <= old(Objects()) && Changers() <= old(Changers())
    {
      assert forall b | b in accounts :: b in old(accounts) && accounts[b] == old(accounts)[b];
    }

    /** The account in which a change was made, undone in place. */
    method RevertAccountChange(e: Change)
      requires Valid() && Dirtied(e).Some? && !e.CreateObject? && e.account in accounts
      modifies Repr()
      ensures Valid() && Repr() == old(Repr()) && changer == old(changer)
      ensures State() == WithAccount(old(State()), e.account, RevertAccount(old(At(e.account)), e))
    {
      var acc := accounts[e.account];
      match e {
        case BalanceChange(_, prev) => acc.RestoreBalance(prev);
        case NonceChange(_, prev) => acc.RestoreNonce(prev);
        case StorageChange(_, k, prev) => acc.AddState(k, prev);
        case CodeChange(_, prev) => acc.RestoreCode(prev);
      }
      QuietWrite(e.account);
    }

    method RevertChange(e: Change)
      requires Valid() && EntryLive(State().base, State().accounts.Keys, State().extra, e)
      modifies Repr()
      ensures Valid() && Repr() <= old(Repr()) && changer == old(changer)
      ensures State() == LedgerModel.RevertChange(old(State()), e)
    {
      hide RevertExtra, RevertAccount, BaseInner;
      if e.CreateObject? {
        accounts := accounts - {e.account};
        storage.cache := storage.cache.(inner := storage.cache.inner - {e.account});
        Dropped(e.account);
      } else if Dirtied(e).Some? {
        RevertAccountChange(e);
      } else {
        SetExtra(RevertExtra(extra, e));
      }
    }

    ghost function Cut(n: nat): Ledger
      requires n <= |changer.changes|
      reads this, storage, changer, Objects()
    {
      State().(log := changer.changes[..n])
    }

    method RevertOne(i: nat)
      requires Valid() && i < |changer.changes|
      requires EntryLive(State().base, State().accounts.Keys, State().extra, changer.changes[i])
      modifies Repr()
      ensures Valid() && Repr() <= old(Repr()) && changer == old(changer) && changer.changes == old(changer.changes)
      ensures State().revisions == old(revisions)
      ensures Cut(i) == RevertLast(old(Cut(i + 1)))
    {
      hide Unbump, EntryLive, LedgerModel.RevertChange;
      var e := changer.changes[i];
      ghost var s, rest := State(), changer.changes[..i + 1];
      assert rest[|rest| - 1] == e && rest[..|rest| - 1] == changer.changes[..i];
      RevertIgnoresLog(s, e, rest);
      RevertChange(e);
      ReleaseEntry(e);
    }

    method ReleaseEntry(e: Change)
      requires Valid()
      modifies changer`dirties
      ensures State() == old(State()).(dirties := Unbump(old(State()).dirties, e))
    {
      hide Unbump;
      changer.Release(e);
      SameOverlay();
    }

    /** `stateChanger.revert`: undoes the entries from the newest down to n. */
    method RevertLog(n: nat)
      requires Valid() && n <= |changer.changes| && Revertible(State(), n)
      modifies Repr()
      ensures Valid() && Repr() <= old(Repr()) && changer == old(changer)
      ensures State() == RevertTo(old(State()), n)
    {
      hide RevertLast, EntryLive, Revertible, RevertTo, Overlay, Objects, Changers;
      var i := |changer.changes|;
      assert changer.changes[..i] == changer.changes;
      while i > n
        invariant n <= i <= |changer.changes| && changer.changes == old(changer.changes)
        invariant Valid() && Repr() <= old(Repr()) && changer == old(changer)
        invariant Revertible(Cut(i), n) && RevertTo(Cut(i), n) == RevertTo(old(State()), n)
      {
        NextUndone(Cut(i), n);
        assert changer.changes[..i][i - 1] == changer.changes[i - 1];
        i := i - 1;
        RevertOne(i);
      }
      AllUndone(Cut(n), n);
      Truncate(n);
    }

    /** `RevertToSnapshot`; the program panics where nothing is found. That the log can be
        unwound holds in every state a run reaches, by `FlatLedger.RevertRefines`. */
    method RevertToSnapshot(id: nat) returns (found: bool)
      requires Valid() && RevisionsOk(revisions, nextRevision, |changer.changes|)
      requires forall i | 0 <= i < |revisions| && revisions[i].id == id :: Revertible(State(), revisions[i].index)
      modifies Repr()
      ensures Valid() && Repr() <= old(Repr()) && changer == old(changer)
      ensures found <==> FlatLedger.IndexOf(FlatLedger.Ids(old(revisions)), id) < |old(revisions)|
      ensures if found
              then FlatLedger.Callable(old(State()), FlatLedger.Revert(id))
                   && State() == FlatLedger.Apply(old(State()), FlatLedger.Revert(id))
              else State() == old(State())
    {
      hide Revertible, RevertTo, FlatLedger.Apply, FlatLedger.Callable;
      var idx := Search(id);
      if idx == |revisions| || revisions[idx].id != id {
        NotFound(FlatLedger.Ids(revisions), id);
        return false;
      }
      RevertOf(State(), id, idx);
      RevertLog(revisions[idx].index);
      DropRevisions(idx);
      return true;
    }

    method DropRevisions(idx: nat)
      requires Valid() && idx <= |State().revisions|
      modifies this`revisions
      ensures Valid() && Repr() == old(Repr()) && changer == old(changer)
      ensures State() == old(State()).(revisions := old(State()).revisions[..idx])
    {
      revisions := revisions[..idx];
      SameOverlay();
    }

    twostate lemma AllUntracked()
      requires accounts == old(accounts)
      requires forall b | b in accounts :: accounts[b].Fields() == old(accounts[b].Fields())
      requires forall b | b in accounts :: accounts[b].changer != changer
      ensures Overlay() == Untracked(old(Overlay()))
    {
    }

    /** `Finalise`: the ledger gets a new log, while its accounts keep the old one. */
    method ClearChangerAndRefund()
      requires Valid()
      modifies this
      ensures Valid() && fresh(Repr() - old(Repr()))
      ensures State() == LedgerModel.Finalise(old(State()))
    {
      if |changer.changes| > 0 {
        changer := new StateChanger();
        extra := extra.(refund := 0);
        AllUntracked();
      }
      EndRevisions();
    }

    method EndRevisions()
      requires Valid()
      modifies this`revisions, this`nextRevision
      ensures Valid() && Repr() == old(Repr())
      ensures State() == old(State()).(revisions := [], nextRevision := 0)
    {
      revisions, nextRevision := [], 0;
      SameOverlay();
    }

    method PrepareEVM(h: TxHash)
      requires Valid()
      modifies this`extra
      ensures Valid() && Repr() == old(Repr())
      ensures State() == PrepareTx(old(State()), h)
    {
      SetExtra(extra.(txHash := h, access := map[]));
    }

    // ---- whole runs --------------------------------------------------------------------------------

    predicate OnAccount(op: FlatLedger.Op) {
      || op.GetAccount? || op.GetState? || op.GetCode? || op.PutBalance? || op.PutNonce?
      || op.PutCode? || op.PutState? || op.PutStateUnlogged?
    }

    method DoOnAccount(op: FlatLedger.Op)
      requires Valid() && OnAccount(op)
      modifies Repr()
      ensures Valid() && fresh(Repr() - old(Repr()))
      ensures State() == FlatLedger.Apply(old(State()), op)
    {
      hide State, Valid, Repr, LedgerModel.SetBalance, LedgerModel.SetNonce, LedgerModel.SetCode,
        LedgerModel.SetState, LedgerModel.AddState, ReadState, ReadCode, Touch;
      match op {
        case GetAccount(a) => Load(a);
        case GetState(a, k) => var v := GetState(a, k);
        case GetCode(a) => var code := GetCode(a);
        case PutBalance(a, v) => SetBalance(a, v);
        case PutNonce(a, n) => SetNonce(a, n);
        case PutCode(a, code) => SetCode(a, code);
        case PutState(a, k, v) => SetState(a, k, v);
        case PutStateUnlogged(a, k, v) => AddState(a, k, v);
      }
    }

    method Load(a: Address)
      requires Valid()
      modifies Repr()
      ensures Valid() && fresh(Repr() - old(Repr()))
      ensures State() == Touch(old(State()), a)
    {
      hide Touch;
      var acc := GetOrCreateAccount(a);
    }

    predicate OnFields(op: FlatLedger.Op) {
      || op.GainRefund? || op.UseRefund? || op.NotePreimage? || op.EmitLog? || op.AccessAddress?
      || op.AccessSlot? || op.BeginTx?
    }

    method DoOnFields(op: FlatLedger.Op)
      requires Valid() && OnFields(op) && FlatLedger.Callable(State(), op)
      modifies Repr()
      ensures Valid() && fresh(Repr() - old(Repr()))
      ensures State() == FlatLedger.Apply(old(State()), op)
    {
      hide LedgerModel.AddLog, LedgerModel.AddPreimage, LedgerModel.AddRefund, LedgerModel.SubRefund,
        AddAccessAddress, AddAccessSlot, PrepareTx, Overlay, Objects, Changers;
      match op {
        case GainRefund(gas) => AddRefund(gas);
        case UseRefund(gas) => SubRefund(gas);
        case NotePreimage(h, image) => AddPreimage(h, image);
        case EmitLog(entry) => AddLog(entry);
        case AccessAddress(a) => AddAddressToAccessList(a);
        case AccessSlot(a, slot) => AddSlotToAccessList(a, slot);
        case BeginTx(h) => PrepareEVM(h);
      }
    }

    /** Any call on the ledger. */
    method Do(op: FlatLedger.Op)
      requires Valid() && FlatLedger.Callable(State(), op)
      requires RevisionsOk(revisions, nextRevision, |changer.changes|)
      modifies Repr()
      ensures Valid() && fresh(Repr() - old(Repr()))
      ensures State() == FlatLedger.Apply(old(State()), op)
    {
      if OnAccount(op) {
        DoOnAccount(op);
      } else if OnFields(op) {
        DoOnFields(op);
      } else {
        DoOnRevisions(op);
      }
    }

    method DoOnRevisions(op: FlatLedger.Op)
      requires Valid() && FlatLedger.Callable(State(), op) && !OnAccount(op) && !OnFields(op)
      requires RevisionsOk(revisions, nextRevision, |changer.changes|)
      modifies Repr()
      ensures Valid() && fresh(Repr() - old(Repr()))
      ensures State() == FlatLedger.Apply(old(State()), op)
    {
      hide LedgerModel.Finalise, LedgerModel.Snapshot, Revertible, LedgerModel.RevertToSnapshot;
      match op {
        case TakeSnapshot => var id := Snapshot();
        case Revert(id) => Revert(id);
        case EndTx => ClearChangerAndRefund();
      }
    }

    method Revert(id: nat)
      requires Valid() && RevisionsOk(revisions, nextRevision, |changer.changes|)
      requires FlatLedger.Callable(State(), FlatLedger.Revert(id))
      modifies Repr()
      ensures Valid() && Repr() <= old(Repr())
      ensures State() == FlatLedger.Apply(old(State()), FlatLedger.Revert(id))
    {
      hide Revertible, FlatLedger.Apply;
      forall i | 0 <= i < |revisions| && revisions[i].id == id
        ensures Revertible(State(), revisions[i].index)
      {
        UndoExact.IndexExact(FlatLedger.Ids(revisions), i);
      }
      var found := RevertToSnapshot(id);
    }

    /** Over every run of calls the ledger object shows what a flat map would hold. */
    method Replay(ops: seq<FlatLedger.Op>, ghost f: FlatLedger.Flat)
      requires Valid() && FlatLedger.Refines(State(), f) && FlatLedger.LegalRun(State(), ops)
      modifies Repr()
      ensures Valid() && fresh(Repr() - old(Repr()))
      ensures State() == FlatLedger.Run(old(State()), ops)
      ensures FlatLedger.Refines(State(), FlatLedger.FlatRun(old(State()), f, ops))
    {
      hide FlatLedger.Refines, FlatLedger.Apply, FlatLedger.FlatApply, FlatLedger.AdviceOf, FlatLedger.LegalRun,
        FlatLedger.Run, FlatLedger.FlatRun, FlatLedger.Callable;
      ghost var g := f;
      var i := 0;
      while i < |ops|
        invariant 0 <= i <= |ops|
        invariant Valid() && fresh(Repr() - old(Repr()))
        invariant FlatLedger.Refines(State(), g) && FlatLedger.LegalRun(State(), ops[i..])
        invariant FlatLedger.Run(State(), ops[i..]) == FlatLedger.Run(old(State()), ops)
        invariant FlatLedger.FlatRun(State(), g, ops[i..]) == FlatLedger.FlatRun(old(State()), f, ops)
      {
        RunStep(State(), g, ops, i);
        g := FlatLedger.FlatApply(g, ops[i], FlatLedger.AdviceOf(State(), ops[i]));
        Do(ops[i]);
        i := i + 1;
      }
      RunDone(State(), g, ops[i..]);
    }

    method Truncate(n: nat)
      requires Valid() && n <= |changer.changes|
      modifies changer`changes
      ensures State() == old(Cut(n))
    {
      changer.changes := changer.changes[..n];
      SameOverlay();
    }
  }

  lemma RevertOf(s: Ledger, id: nat, i: nat)
    requires RevisionsOk(s.revisions, s.nextRevision, |s.log|)
    requires i < |s.revisions| && s.revisions[i].id == id && Revertible(s, s.revisions[i].index)
    ensures FlatLedger.IndexOf(FlatLedger.Ids(s.revisions), id) == i
    ensures FlatLedger.Callable(s, FlatLedger.Revert(id))
    ensures var r := RevertTo(s, s.revisions[i].index);
            && r.revisions == s.revisions
            && FlatLedger.Apply(s, FlatLedger.Revert(id)) == r.(revisions := r.revisions[..i])
  {
    hide Revertible, RevertTo;
    UndoExact.IndexExact(FlatLedger.Ids(s.revisions), i);
    LedgerUndo.RevertToShape(s, s.revisions[i].index);
  }

  lemma RunStep(s: Ledger, f: FlatLedger.Flat, ops: seq<FlatLedger.Op>, i: nat)
    requires i < |ops| && FlatLedger.Refines(s, f) && FlatLedger.LegalRun(s, ops[i..])
    ensures FlatLedger.Callable(s, ops[i]) && RevisionsOk(s.revisions, s.nextRevision, |s.log|)
    ensures var t, g := FlatLedger.Apply(s, ops[i]), FlatLedger.FlatApply(f, ops[i], FlatLedger.AdviceOf(s, ops[i]));
            && FlatLedger.Refines(t, g) && FlatLedger.LegalRun(t, ops[i + 1..])
            && FlatLedger.Run(t, ops[i + 1..]) == FlatLedger.Run(s, ops[i..])
            && FlatLedger.FlatRun(t, g, ops[i + 1..]) == FlatLedger.FlatRun(s, f, ops[i..])
  {
    assert ops[i..][0] == ops[i] && ops[i..][1..] == ops[i + 1..];
    FlatLedger.StepRefines(s, f, ops[i]);
  }

  lemma RunDone(s: Ledger, f: FlatLedger.Flat, ops: seq<FlatLedger.Op>)
    requires ops == []
    ensures FlatLedger.LegalRun(s, ops) && FlatLedger.Run(s, ops) == s && FlatLedger.FlatRun(s, f, ops) == f
  {
  }

  lemma NotFound(ids: seq<nat>, id: nat)
    requires forall i | 0 <= i < |ids| :: ids[i] != id
    ensures FlatLedger.IndexOf(ids, id) == |ids|
  {
  }

  lemma NextUndone(s: Ledger, n: nat)
    requires Revertible(s, n) && |s.log| > n
    ensures EntryLive(s.base, s.accounts.Keys, s.extra, s.log[|s.log| - 1])
    ensures Revertible(RevertLast(s), n) && RevertTo(s, n) == RevertTo(RevertLast(s), n)
  {
  }

  lemma AllUndone(s: Ledger, n: nat)
    requires |s.log| <= n
    ensures Revertible(s, n) && RevertTo(s, n) == s
  {
  }
}
