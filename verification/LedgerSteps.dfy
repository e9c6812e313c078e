/** How each ledger operation changes the observable state, and why the log
    entries it appends undo it. */
module LedgerSteps {
  import opened GoBytes
  import opened LedgerModel
  import opened LedgerView

  /** Between `s` and `t` nothing happened that the new log entries do not undo:
      unwinding to any earlier point gives the same flat state from both. */
  ghost predicate Keeps(s: Ledger, t: Ledger) {
    && FloorOf(t.base) == FloorOf(s.base)
    && t.revisions == s.revisions && t.nextRevision == s.nextRevision
    && |s.log| <= |t.log|
    && (forall n: nat | n <= |s.log| ::
          && Unwind(FloorOf(t.base), View(t), t.log, n) == Unwind(FloorOf(s.base), View(s), s.log, n)
          && (Ready(s, n) ==> Ready(t, n)))
  }

  /** No account goes away or forgets a dirty key. */
  predicate Grows(m: map<Address, Account>, m': map<Address, Account>) {
    forall a | a in m :: a in m' && m[a].dirtyState.Keys <= m'[a].dirtyState.Keys && m'[a].originCode == m[a].originCode
  }

  lemma {:induction false} LiveLogMonotone(
      fl: Floor, live: set<Address>, more: set<Address>, x: Extra, log: seq<Change>, n: nat)
    requires live <= more && LiveLog(fl, live, x, log, n)
    ensures LiveLog(fl, more, x, log, n)
    decreases |log|
  {
    if |log| > n {
      var e := log[|log| - 1];
      LiveLogMonotone(fl, LiveAfter(live, e), LiveAfter(more, e), RevertExtra(x, e), log[..|log| - 1], n);
    }
  }

  /** A step that observes only. */
  lemma QuietKeeps(s: Ledger, t: Ledger)
    requires FloorOf(t.base) == FloorOf(s.base) && View(t) == View(s) && t.log == s.log
    requires t.revisions == s.revisions && t.nextRevision == s.nextRevision
    requires Grows(s.accounts, t.accounts)
    ensures Keeps(s, t)
  {
    assert t.extra == s.extra by { assert View(t).extra == View(s).extra; }
    forall n: nat | n <= |s.log| && Ready(s, n)
      ensures Ready(t, n)
    {
      LiveLogMonotone(FloorOf(s.base), s.accounts.Keys, t.accounts.Keys, s.extra, s.log, n);
    }
  }

  /** A step that appends one entry which undoes it. */
  lemma LoggedKeeps(s: Ledger, t: Ledger, e: Change)
    requires FloorOf(t.base) == FloorOf(s.base) && t.log == s.log + [e]
    requires t.revisions == s.revisions && t.nextRevision == s.nextRevision
    requires Undo(FloorOf(s.base), View(t), e) == View(s)
    requires LiveEntry(FloorOf(s.base), t.accounts.Keys, t.extra, e) && EntryFits(t.accounts, e)
    requires Grows(s.accounts, t.accounts) && s.accounts.Keys <= LiveAfter(t.accounts.Keys, e)
    requires RevertExtra(t.extra, e) == s.extra
    ensures Keeps(s, t)
  {
    var fl := FloorOf(s.base);
    assert t.log[..|t.log| - 1] == s.log;
    forall n: nat | n <= |s.log|
      ensures Unwind(fl, View(t), t.log, n) == Unwind(fl, View(s), s.log, n)
      ensures Ready(s, n) ==> Ready(t, n)
    {
      if Ready(s, n) {
        LiveLogMonotone(fl, s.accounts.Keys, LiveAfter(t.accounts.Keys, e), s.extra, s.log, n);
        FitsGrow(s, t, e, n);
      }
    }
  }

  lemma FitsGrow(s: Ledger, t: Ledger, e: Change, n: nat)
    requires t.log == s.log + [e] && Grows(s.accounts, t.accounts) && EntryFits(t.accounts, e)
    requires forall i | n <= i < |s.log| :: EntryFits(s.accounts, s.log[i])
    ensures forall i | n <= i < |t.log| :: EntryFits(t.accounts, t.log[i])
  {
    forall i | n <= i < |t.log|
      ensures EntryFits(t.accounts, t.log[i])
    {
      assert i < |s.log| ==> t.log[i] == s.log[i] && EntryFits(s.accounts, s.log[i]);
    }
  }

  lemma KeepsTransitive(s: Ledger, t: Ledger, u: Ledger)
    requires Keeps(s, t) && Keeps(t, u)
    ensures Keeps(s, u)
  {
  }

  // ---- reads ---------------------------------------------------------------------

  lemma LoadedAccountOk(b: Base, a: Address)
    requires BaseOk(b)
    ensures LoadAccount(b, a).Some? <==> BaseInner(b, a).Some?
    ensures LoadAccount(b, a).Some? ==> AccountOk(b, a, LoadAccount(b, a).value)
    ensures BaseInner(b, a).None? ==> AccountOk(b, a, NEW_ACCOUNT)
  {
    assert HashMatches(BaseInner(b, a), BaseCode(b, a));
  }

  /** A live account shows what its overlays hold; its code is the dirty code. */
  lemma AccountCode(b: Base, a: Address, acc: Account)
    requires BaseOk(b) && AccountOk(b, a, acc)
    ensures CodeOf(acc, BaseCode(b, a)) == acc.dirtyCode
    ensures LoadCode(acc, BaseCode(b, a)) == acc
  {
  }

  lemma BumpCounts(log: seq<Change>, d: map<Address, nat>, e: Change)
    requires DirtiesOk(log, d)
    ensures DirtiesOk(log + [e], Bump(d, e))
  {
    assert (log + [e])[..|log|] == log;
  }

  lemma UnbumpCounts(log: seq<Change>, d: map<Address, nat>)
    requires DirtiesOk(log, d) && log != []
    ensures DirtiesOk(log[..|log| - 1], Unbump(d, log[|log| - 1]))
  {
    var e := log[|log| - 1];
    var rest := log[..|log| - 1];
    forall a: Address
      ensures var u := Unbump(d, e);
              if a in u then u[a] == Entries(rest, a) > 0 else Entries(rest, a) == 0
    {
      assert Entries(log, a) == Entries(rest, a) + if Dirtied(e) == Some(a) then 1 else 0;
    }
  }

  lemma AppendCoherent(s: Ledger, e: Change)
    requires Coherent(s) && !e.RefundChange?
    ensures Coherent(Append(s, e))
  {
    BumpCounts(s.log, s.dirties, e);
    assert (s.log + [e])[..|s.log|] == s.log;
  }

  lemma WithAccountCoherent(s: Ledger, a: Address, acc: Account)
    requires Coherent(s) && AccountOk(s.base, a, acc)
    ensures Coherent(WithAccount(s, a, acc))
  {
  }

  /** Replacing one account changes the state view at its address only. */
  lemma StateViewUpdate(
      b: Base, accs: map<Address, Account>, a: Address, acc: Account, o: imap<(Address, Key), Val>, x: Extra)
    requires forall p: (Address, Key) :: p in o
    requires forall k: Key :: o[(a, k)] == StateOf(acc, BaseState(b, a, k), k)
    requires forall p: (Address, Key) :: p.0 != a ==> o[p] == StateAt(b, accs, p.0, p.1)
    ensures ViewOf(b, accs[a := acc], x).state == o
  {
    var v := ViewOf(b, accs[a := acc], x).state;
    forall p: (Address, Key)
      ensures p in v && v[p] == o[p]
    {
      assert p == (p.0, p.1);
    }
  }

  /** Replacing one account changes balance, nonce and code at its address only. */
  lemma AcctViewUpdate(b: Base, accs: map<Address, Account>, a: Address, acc: Account, x: Extra)
    ensures ViewOf(b, accs[a := acc], x).acct ==
            ViewOf(b, accs, x).acct[a := BasicsAt(b, accs[a := acc], a)]
  {
    var v, w := ViewOf(b, accs, x).acct, ViewOf(b, accs[a := acc], x).acct;
    forall c: Address
      ensures c in w && w[c] == v[a := BasicsAt(b, accs[a := acc], a)][c]
    {
    }
  }

  lemma SameView(b: Base, accs: map<Address, Account>, a: Address, acc: Account, x: Extra)
    requires BasicsAt(b, accs[a := acc], a) == BasicsAt(b, accs, a)
    requires forall k: Key :: StateOf(acc, BaseState(b, a, k), k) == StateAt(b, accs, a, k)
    ensures ViewOf(b, accs[a := acc], x) == ViewOf(b, accs, x)
  {
    var v := ViewOf(b, accs, x);
    AcctViewUpdate(b, accs, a, acc, x);
    assert v.acct[a := v.acct[a]] == v.acct;
    StateViewUpdate(b, accs, a, acc, v.state, x);
  }

  lemma ViewExtra(s: Ledger)
    ensures View(s).extra == s.extra
  {
  }

  lemma TouchView(s: Ledger, a: Address)
    requires BaseOk(s.base) && a !in s.accounts
    ensures var t := Touch(s, a);
            a in t.accounts && AccountOk(s.base, a, t.accounts[a]) && View(t) == View(s)
  {
    LoadedAccountOk(s.base, a);
    var acc := Touch(s, a).accounts[a];
    AccountCode(s.base, a, acc);
    assert HashMatches(BaseInner(s.base, a), BaseCode(s.base, a));
    SameView(s.base, s.accounts, a, acc, s.extra);
  }

  lemma CreationUndone(s: Ledger, a: Address)
    requires a !in s.accounts && BaseInner(s.base, a).None?
    ensures Undo(FloorOf(s.base), View(s), CreateObject(a)) == View(s)
  {
    var v := View(s);
    assert v.acct[a] == Basics(0, 0, None);
    assert v.acct[a := v.acct[a]] == v.acct;
    assert UndoState(FloorOf(s.base), v.state, a) == v.state;
  }

  lemma CreatedKeeps(s: Ledger, a: Address)
    requires BaseOk(s.base) && a !in s.accounts && LoadAccount(s.base, a).None?
    ensures Keeps(s, Touch(s, a))
  {
    hide View, Undo, Keeps, AccountOk, BaseOk, Bump;
    var t := Touch(s, a);
    TouchView(s, a);
    CreationUndone(s, a);
    LoggedKeeps(s, t, CreateObject(a));
  }

  lemma TouchKeeps(s: Ledger, a: Address)
    requires BaseOk(s.base)
    ensures Keeps(s, Touch(s, a))
  {
    hide View, Undo, Keeps, AccountOk, BaseOk, Bump, FloorOf;
    if a in s.accounts {
      QuietKeeps(s, Touch(s, a));
    } else if LoadAccount(s.base, a).None? {
      CreatedKeeps(s, a);
    } else {
      TouchView(s, a);
      QuietKeeps(s, Touch(s, a));
    }
  }

  lemma TouchCoherent(s: Ledger, a: Address)
    requires Coherent(s)
    ensures Coherent(Touch(s, a))
  {
    if a !in s.accounts {
      TouchView(s, a);
      var acc := Touch(s, a).accounts[a];
      WithAccountCoherent(s, a, acc);
      if LoadAccount(s.base, a).None? {
        AppendCoherent(WithAccount(s, a, acc), CreateObject(a));
      }
    }
  }

  lemma ReadStateOk(s: Ledger, a: Address, k: Key)
    requires Coherent(s) && a in s.accounts
    ensures var acc := LoadState(s.accounts[a], BaseState(s.base, a, k), k);
            && AccountOk(s.base, a, acc)
            && (k in acc.originState || BaseState(s.base, a, k).None?)
            && StateOf(acc, BaseState(s.base, a, k), k) == StateAt(s.base, s.accounts, a, k)
            && View(WithAccount(s, a, acc)) == View(s)
  {
    var acc := LoadState(s.accounts[a], BaseState(s.base, a, k), k);
    SameView(s.base, s.accounts, a, acc, s.extra);
  }

  /** Replacing a live account by one that shows the same and forgets nothing. */
  lemma RefreshKeeps(s: Ledger, a: Address, acc: Account)
    requires a in s.accounts && View(WithAccount(s, a, acc)) == View(s)
    requires acc.dirtyState == s.accounts[a].dirtyState && acc.originCode == s.accounts[a].originCode
    ensures Keeps(s, WithAccount(s, a, acc))
  {
    QuietKeeps(s, WithAccount(s, a, acc));
  }

  lemma LoadStateStep(u: Ledger, a: Address, k: Key)
    requires Coherent(u) && a in u.accounts
    ensures var t := WithAccount(u, a, LoadState(u.accounts[a], BaseState(u.base, a, k), k));
            Coherent(t) && View(t) == View(u) && Keeps(u, t)
  {
    var acc := LoadState(u.accounts[a], BaseState(u.base, a, k), k);
    ReadStateOk(u, a, k);
    WithAccountCoherent(u, a, acc);
    RefreshKeeps(u, a, acc);
  }

  /** `GetState` changes nothing that can be observed, and returns the flat value. */
  lemma ReadStateStep(s: Ledger, a: Address, k: Key)
    requires Coherent(s)
    ensures Coherent(ReadState(s, a, k)) && View(ReadState(s, a, k)) == View(s) && Keeps(s, ReadState(s, a, k))
    ensures var t := ReadState(s, a, k);
            a in t.accounts && StateOf(t.accounts[a], BaseState(t.base, a, k), k) == View(s).state[(a, k)]
  {
    var u := Touch(s, a);
    TouchStep(s, a);
    LoadStateStep(u, a, k);
    ReadStateOk(u, a, k);
    KeepsTransitive(s, u, ReadState(s, a, k));
    assert View(u).state[(a, k)] == StateAt(u.base, u.accounts, a, k);
  }

  lemma TouchShape(s: Ledger, a: Address)
    ensures a in Touch(s, a).accounts && Touch(s, a).base == s.base
    ensures a !in s.accounts ==> Touch(s, a).accounts[a].tracked
  {
  }

  lemma TouchStep(s: Ledger, a: Address)
    requires Coherent(s)
    ensures a in Touch(s, a).accounts && Touch(s, a).base == s.base
    ensures Coherent(Touch(s, a)) && View(Touch(s, a)) == View(s) && Keeps(s, Touch(s, a))
    ensures a !in s.accounts ==> Touch(s, a).accounts[a].tracked
  {
    TouchShape(s, a);
    TouchCoherent(s, a);
    TouchKeeps(s, a);
    if a in s.accounts {
      assert Touch(s, a) == s;
    } else {
      TouchView(s, a);
    }
  }

  /** The state after writing one live account and logging the change. */
  function Written(s: Ledger, a: Address, acc: Account, e: Change): Ledger
    requires a in s.accounts
  {
    WithAccount(Record(s, s.accounts[a].tracked, e), a, acc)
  }

  lemma WrittenCoherent(s: Ledger, a: Address, acc: Account, e: Change)
    requires Coherent(s) && a in s.accounts && AccountOk(s.base, a, acc) && Dirtied(e) == Some(a)
    ensures Coherent(Written(s, a, acc, e))
  {
    if s.accounts[a].tracked { AppendCoherent(s, e); }
    WithAccountCoherent(Record(s, s.accounts[a].tracked, e), a, acc);
  }

  lemma WrittenGrows(accs: map<Address, Account>, a: Address, acc: Account)
    requires a in accs && accs[a].dirtyState.Keys <= acc.dirtyState.Keys && acc.originCode == accs[a].originCode
    ensures Grows(accs, accs[a := acc]) && accs[a := acc].Keys == accs.Keys
  {
  }

  lemma WrittenKeeps(s: Ledger, a: Address, acc: Account, e: Change)
    requires a in s.accounts && s.accounts[a].tracked && Dirtied(e) == Some(a) && !e.CreateObject?
    requires s.accounts[a].dirtyState.Keys <= acc.dirtyState.Keys && acc.originCode == s.accounts[a].originCode
    requires EntryFits(s.accounts[a := acc], e)
    requires Undo(FloorOf(s.base), View(Written(s, a, acc, e)), e) == View(s)
    ensures Keeps(s, Written(s, a, acc, e))
  {
    hide View, FloorOf, Undo, Bump, Keeps;
    WrittenGrows(s.accounts, a, acc);
    LoggedKeeps(s, Written(s, a, acc, e), e);
  }

  /** The flat effect of a write. */
  ghost function WithBasics(o: Obs, a: Address, b: Basics): Obs {
    o.(acct := o.acct[a := b])
  }

  ghost function WithFlatState(o: Obs, a: Address, k: Key, v: Val): Obs {
    o.(state := o.state[(a, k) := v])
  }

  lemma AcctWriteView(b: Base, accs: map<Address, Account>, a: Address, acc: Account, x: Extra)
    requires a in accs && acc.originState == accs[a].originState && acc.dirtyState == accs[a].dirtyState
    ensures ViewOf(b, accs[a := acc], x) == WithBasics(ViewOf(b, accs, x), a, BasicsAt(b, accs[a := acc], a))
  {
    AcctViewUpdate(b, accs, a, acc, x);
    StateViewUpdate(b, accs, a, acc, ViewOf(b, accs, x).state, x);
  }

  lemma StateWriteView(b: Base, accs: map<Address, Account>, a: Address, k: Key, v: Val, x: Extra)
    requires a in accs
    ensures ViewOf(b, accs[a := WithState(accs[a], k, v)], x) == WithFlatState(ViewOf(b, accs, x), a, k, v)
  {
    var acc := WithState(accs[a], k, v);
    var o := ViewOf(b, accs, x);
    AcctViewUpdate(b, accs, a, acc, x);
    assert o.acct[a := o.acct[a]] == o.acct;
    StateViewUpdate(b, accs, a, acc, o.state[(a, k) := v], x);
  }

  /** Restoring the previous basics undoes a basics write. */
  lemma BasicsRestored(o: Obs, a: Address, b: Basics, fl: Floor, e: Change)
    requires a in o.acct && Dirtied(e) == Some(a) && !e.StorageChange? && !e.CreateObject?
    requires UndoBasics(b, e) == o.acct[a]
    ensures Undo(fl, WithBasics(o, a, b), e) == o
  {
    assert WithBasics(o, a, b).acct[a := o.acct[a]] == o.acct;
  }

  lemma StateRestored(o: Obs, a: Address, k: Key, v: Val, fl: Floor)
    requires (a, k) in o.state
    ensures Undo(fl, WithFlatState(o, a, k, v), StorageChange(a, k, o.state[(a, k)])) == o
  {
    assert WithFlatState(o, a, k, v).state[(a, k) := o.state[(a, k)]] == o.state;
  }

  lemma BasicsWriteStep(u: Ledger, a: Address, acc: Account, e: Change)
    requires Coherent(u) && a in u.accounts && AccountOk(u.base, a, acc)
    requires acc.originState == u.accounts[a].originState && acc.dirtyState == u.accounts[a].dirtyState
    requires Dirtied(e) == Some(a) && !e.StorageChange? && !e.CreateObject?
    requires acc.originCode == u.accounts[a].originCode && EntryFits(u.accounts[a := acc], e)
    requires UndoBasics(BasicsAt(u.base, u.accounts[a := acc], a), e) == BasicsAt(u.base, u.accounts, a)
    ensures Coherent(Written(u, a, acc, e))
    ensures View(Written(u, a, acc, e)) == WithBasics(View(u), a, BasicsAt(u.base, u.accounts[a := acc], a))
    ensures u.accounts[a].tracked ==> Keeps(u, Written(u, a, acc, e))
  {
    AcctWriteView(u.base, u.accounts, a, acc, u.extra);
    BasicsRestored(View(u), a, BasicsAt(u.base, u.accounts[a := acc], a), FloorOf(u.base), e);
    WrittenCoherent(u, a, acc, e);
    if u.accounts[a].tracked { WrittenKeeps(u, a, acc, e); }
  }

  /** Overwriting a basic of a sound account gives a sound account that shows the new value. */
  lemma BalanceWritten(b: Base, a: Address, acc: Account, v: int)
    requires BaseOk(b) && AccountOk(b, a, acc)
    ensures AccountOk(b, a, WithBalance(acc, v))
    ensures CodeOf(WithBalance(acc, v), BaseCode(b, a)) == CodeOf(acc, BaseCode(b, a))
  {
    AccountCode(b, a, acc);
    AccountCode(b, a, WithBalance(acc, v));
  }

  lemma NonceWritten(b: Base, a: Address, acc: Account, n: nat)
    requires BaseOk(b) && AccountOk(b, a, acc)
    ensures AccountOk(b, a, WithNonce(acc, n))
    ensures CodeOf(WithNonce(acc, n), BaseCode(b, a)) == CodeOf(acc, BaseCode(b, a))
  {
    AccountCode(b, a, acc);
    AccountCode(b, a, WithNonce(acc, n));
  }

  lemma CodeWritten(b: Base, a: Address, acc: Account, code: Val)
    requires BaseOk(b) && AccountOk(b, a, acc)
    requires Proper(code) && (acc.originCode.Some? ==> code.Some?)
    ensures AccountOk(b, a, WithCode(acc, code))
    ensures CodeOf(WithCode(acc, code), BaseCode(b, a)) == code
  {
    AccountCode(b, a, WithCode(acc, code));
  }

  lemma SetBalanceStep(s: Ledger, a: Address, v: int)
    requires Coherent(s)
    ensures Coherent(SetBalance(s, a, v))
    ensures View(SetBalance(s, a, v)) == WithBasics(View(s), a, View(s).acct[a].(balance := v))
    ensures (a in s.accounts ==> s.accounts[a].tracked) ==> Keeps(s, SetBalance(s, a, v))
  {
    TouchStep(s, a);
    var u := Touch(s, a);
    WriteBalance(u, a, v);
    if a in s.accounts ==> s.accounts[a].tracked {
      KeepsTransitive(s, u, SetBalance(s, a, v));
    }
  }

  lemma WriteBalance(u: Ledger, a: Address, v: int)
    requires Coherent(u) && a in u.accounts
    ensures Coherent(SetBalance(u, a, v))
    ensures View(SetBalance(u, a, v)) == WithBasics(View(u), a, View(u).acct[a].(balance := v))
    ensures u.accounts[a].tracked ==> Keeps(u, SetBalance(u, a, v))
  {
    var acc := u.accounts[a];
    BalanceWritten(u.base, a, acc, v);
    BasicsWriteStep(u, a, WithBalance(acc, v), BalanceChange(a, BalanceOf(Current(acc))));
  }

  lemma SetNonceStep(s: Ledger, a: Address, n: nat)
    requires Coherent(s)
    ensures Coherent(SetNonce(s, a, n))
    ensures View(SetNonce(s, a, n)) == WithBasics(View(s), a, View(s).acct[a].(nonce := n))
    ensures (a in s.accounts ==> s.accounts[a].tracked) ==> Keeps(s, SetNonce(s, a, n))
  {
    TouchStep(s, a);
    var u := Touch(s, a);
    WriteNonce(u, a, n);
    if a in s.accounts ==> s.accounts[a].tracked {
      KeepsTransitive(s, u, SetNonce(s, a, n));
    }
  }

  lemma WriteNonce(u: Ledger, a: Address, n: nat)
    requires Coherent(u) && a in u.accounts
    ensures Coherent(SetNonce(u, a, n))
    ensures View(SetNonce(u, a, n)) == WithBasics(View(u), a, View(u).acct[a].(nonce := n))
    ensures u.accounts[a].tracked ==> Keeps(u, SetNonce(u, a, n))
  {
    var acc := u.accounts[a];
    NonceWritten(u.base, a, acc, n);
    BasicsWriteStep(u, a, WithNonce(acc, n), NonceChange(a, NonceOf(Current(acc))));
  }

  /** The code that a write leaves to be seen: nil uncovers what is stored. */
  function CodeSeen(b: Base, a: Address, code: Val): Val {
    if code.Some? then code else BaseCode(b, a)
  }

  /** The codes that can be told apart later: not empty, and nil only over nil. */
  predicate CodeFits(b: Base, a: Address, code: Val) {
    Proper(code) && (code.Some? || BaseCode(b, a).None?)
  }

  lemma SetCodeStep(s: Ledger, a: Address, code: Val)
    requires Coherent(s)
    ensures View(SetCode(s, a, code)) == WithBasics(View(s), a, View(s).acct[a].(code := CodeSeen(s.base, a, code)))
    ensures Coherent(SetCode(s, a, code)) <==> CodeFits(s.base, a, code)
    ensures CodeFits(s.base, a, code) && Tracks(s, a) ==> Keeps(s, SetCode(s, a, code))
  {
    hide BaseCode, CodeFits, View, Coherent, Keeps, CodeSeen;
    TouchStep(s, a);
    var u := Touch(s, a);
    TouchTwice(s, a);
    WriteCode(u, a, code);
    if CodeFits(s.base, a, code) && Tracks(s, a) {
      KeepsTransitive(s, u, SetCode(s, a, code));
    }
  }

  lemma TouchTwice(s: Ledger, a: Address)
    ensures a in Touch(s, a).accounts && Touch(Touch(s, a), a) == Touch(s, a)
    ensures forall code: Val :: SetCode(Touch(s, a), a, code) == SetCode(s, a, code)
  {
  }

  lemma WriteCode(u: Ledger, a: Address, code: Val)
    requires Coherent(u) && a in u.accounts
    ensures View(SetCode(u, a, code)) == WithBasics(View(u), a, View(u).acct[a].(code := CodeSeen(u.base, a, code)))
    ensures Coherent(SetCode(u, a, code)) <==> CodeFits(u.base, a, code)
    ensures CodeFits(u.base, a, code) && u.accounts[a].tracked ==> Keeps(u, SetCode(u, a, code))
  {
    var acc := u.accounts[a];
    AccountCode(u.base, a, acc);
    assert u.accounts[a := acc] == u.accounts;
    assert ReadCode(u, a) == u;
    AcctWriteView(u.base, u.accounts, a, WithCode(acc, code), u.extra);
    var t := SetCode(u, a, code);
    assert t.accounts[a] == WithCode(acc, code);
    if CodeFits(u.base, a, code) {
      CodeWritten(u.base, a, acc, code);
      BasicsWriteStep(u, a, WithCode(acc, code), CodeChange(a, CodeOf(acc, BaseCode(u.base, a))));
    } else {
      assert !AccountOk(t.base, a, t.accounts[a]);
    }
  }

  lemma StateWritten(b: Base, a: Address, acc: Account, k: Key, v: Val)
    requires AccountOk(b, a, acc) && Proper(v)
    requires k in acc.originState || BaseState(b, a, k).None?
    ensures AccountOk(b, a, WithState(acc, k, v))
  {
  }

  /** After `GetState` the account holds what it needs to journal a write of the key. */
  lemma ReadStateFacts(s: Ledger, a: Address, k: Key)
    requires Coherent(s)
    ensures var t := ReadState(s, a, k);
            && a in t.accounts && t.base == s.base
            && (k in t.accounts[a].originState || BaseState(t.base, a, k).None?)
            && Proper(StateOf(t.accounts[a], BaseState(t.base, a, k), k))
            && ((a in s.accounts ==> s.accounts[a].tracked) ==> t.accounts[a].tracked)
  {
    TouchStep(s, a);
    ReadStateOk(Touch(s, a), a, k);
    assert Proper(BaseState(s.base, a, k));
  }

  lemma SetStateStep(s: Ledger, a: Address, k: Key, v: Val)
    requires Coherent(s) && Proper(v)
    ensures Coherent(SetState(s, a, k, v))
    ensures View(SetState(s, a, k, v)) == WithFlatState(View(s), a, k, v)
    ensures (a in s.accounts ==> s.accounts[a].tracked) ==> Keeps(s, SetState(s, a, k, v))
  {
    ReadStateStep(s, a, k);
    ReadStateFacts(s, a, k);
    var w := ReadState(s, a, k);
    WriteState(w, a, k, v);
    if a in s.accounts ==> s.accounts[a].tracked {
      KeepsTransitive(s, w, SetState(s, a, k, v));
    }
  }

  lemma WriteState(w: Ledger, a: Address, k: Key, v: Val)
    requires Coherent(w) && a in w.accounts && Proper(v)
    requires k in w.accounts[a].originState || BaseState(w.base, a, k).None?
    requires Proper(StateOf(w.accounts[a], BaseState(w.base, a, k), k))
    ensures var acc := w.accounts[a];
            var t := Written(w, a, WithState(acc, k, v), StorageChange(a, k, StateOf(acc, BaseState(w.base, a, k), k)));
            && Coherent(t) && View(t) == WithFlatState(View(w), a, k, v)
            && (acc.tracked ==> Keeps(w, t))
  {
    var acc := w.accounts[a];
    var prev := StateOf(acc, BaseState(w.base, a, k), k);
    StateWriteView(w.base, w.accounts, a, k, v, w.extra);
    assert View(w).state[(a, k)] == prev;
    StateRestored(View(w), a, k, v, FloorOf(w.base));
    StateWritten(w.base, a, acc, k, v);
    var e := StorageChange(a, k, prev);
    WrittenCoherent(w, a, WithState(acc, k, v), e);
    if acc.tracked { WrittenKeeps(w, a, WithState(acc, k, v), e); }
  }

  /** The account knows what is stored under the key, or nothing is. */
  predicate KeyKnown(s: Ledger, a: Address, k: Key) {
    BaseState(s.base, a, k).None? || (a in s.accounts && k in s.accounts[a].originState)
  }

  /** `AddState` shows on any key, but keeps the layers coherent exactly on a key whose
      stored value is known to the account. */
  lemma AddStateStep(s: Ledger, a: Address, k: Key, v: Val)
    requires Coherent(s)
    ensures View(AddState(s, a, k, v)) == WithFlatState(View(s), a, k, v)
    ensures Coherent(AddState(s, a, k, v)) <==> Proper(v) && KeyKnown(s, a, k)
    ensures AddState(s, a, k, v).revisions == s.revisions
  {
    hide View, BaseState, Keeps;
    TouchStep(s, a);
    var u := Touch(s, a);
    UnreadKeys(s, a);
    StateWriteSeen(u, a, k, v);
    var t := AddState(s, a, k, v);
    if Proper(v) && KeyKnown(s, a, k) {
      StateWritten(u.base, a, u.accounts[a], k, v);
      WithAccountCoherent(u, a, WithState(u.accounts[a], k, v));
    } else {
      assert !AccountOk(t.base, a, t.accounts[a]);
    }
  }

  lemma UnreadKeys(s: Ledger, a: Address)
    ensures a !in s.accounts ==> Touch(s, a).accounts[a].originState == map[]
    ensures a in s.accounts ==> Touch(s, a) == s
    ensures Touch(s, a).revisions == s.revisions
  {
  }

  lemma StateWriteSeen(u: Ledger, a: Address, k: Key, v: Val)
    requires a in u.accounts
    ensures View(WithAccount(u, a, WithState(u.accounts[a], k, v))) == WithFlatState(View(u), a, k, v)
  {
    StateWriteView(u.base, u.accounts, a, k, v, u.extra);
  }

  // ---- what writes show, whatever state the live accounts are in -----------------------

  lemma TouchSeen(s: Ledger, a: Address)
    requires BaseOk(s.base)
    ensures var t := Touch(s, a); a in t.accounts && t.base == s.base && View(t) == View(s)
  {
    if a !in s.accounts {
      TouchView(s, a);
    }
  }

  lemma SetBalanceSeen(s: Ledger, a: Address, v: int)
    requires BaseOk(s.base)
    ensures SetBalance(s, a, v).base == s.base
    ensures View(SetBalance(s, a, v)) == WithBasics(View(s), a, View(s).acct[a].(balance := v))
  {
    hide BaseOk, Touch, Bump;
    TouchSeen(s, a);
    var u := Touch(s, a);
    AcctWriteView(u.base, u.accounts, a, WithBalance(u.accounts[a], v), u.extra);
  }

  lemma SetNonceSeen(s: Ledger, a: Address, n: nat)
    requires BaseOk(s.base)
    ensures SetNonce(s, a, n).base == s.base
    ensures View(SetNonce(s, a, n)) == WithBasics(View(s), a, View(s).acct[a].(nonce := n))
  {
    hide BaseOk, Touch, Bump;
    TouchSeen(s, a);
    var u := Touch(s, a);
    AcctWriteView(u.base, u.accounts, a, WithNonce(u.accounts[a], n), u.extra);
  }
}
