/** `applyTransaction` of handle.go: a transaction, its fee, and what is left when the fee
    cannot be paid; and the conservation of balances. */
module Executor {
  import opened GoBytes
  import opened LedgerModel
  import opened LedgerView
  import opened LedgerSteps
  import opened LedgerUndo
  import opened FlatLedger
  import opened UndoExact

  datatype Tx = Tx(from: Address, nonce: nat, hash: TxHash)

  // ---- payments ------------------------------------------------------------------------------------

  function BalanceAt(s: Ledger, a: Address): int {
    BalanceOf(InnerAt(s.base, s.accounts, a))
  }

  /** `GetBalance` followed by `SetBalance`. */
  function Credit(s: Ledger, a: Address, v: int): Ledger {
    SetBalance(s, a, BalanceAt(s, a) + v)
  }

  function PayEach(s: Ledger, admins: seq<Address>, fee: int): Ledger
    decreases |admins|
  {
    if admins == [] then s else PayEach(Credit(s, admins[0], fee), admins[1..], fee)
  }

  /** Every admin gets the same share; the remainder of the division is lost. */
  function PayAdmins(s: Ledger, admins: seq<Address>, fees: int): Ledger
    requires admins != []
  {
    PayEach(s, admins, fees / |admins|)
  }

  function PayGasFee(s: Ledger, from: Address, admins: seq<Address>, fees: nat): Option<Ledger>
    requires admins != []
  {
    var have := BalanceAt(s, from);
    if have < fees then None else Some(PayAdmins(SetBalance(s, from, have - fees), admins, fees))
  }

  function PayLeft(s: Ledger, from: Address, admins: seq<Address>): Ledger
    requires admins != []
  {
    PayAdmins(SetBalance(s, from, 0), admins, BalanceAt(s, from))
  }

  /** `transfer`: both balances are looked up before either is written. */
  function Transfer(s: Ledger, from: Address, to: Address, value: int): Option<Ledger> {
    if value == 0 then Some(s)
    else if BalanceAt(s, from) < value then None
    else
      var t := Touch(Touch(s, from), to);
      Some(SetBalance(SetBalance(t, from, BalanceAt(s, from) - value), to, BalanceAt(s, to) + value))
  }

  // ---- the same on the flat state ------------------------------------------------------------------

  type Wallets = imap<Address, Basics>

  ghost predicate Open(w: Wallets) {
    forall a: Address :: a in w
  }

  ghost function Put(w: Wallets, a: Address, v: int): Wallets
    requires Open(w)
  {
    w[a := w[a].(balance := v)]
  }

  ghost function FlatPay(w: Wallets, admins: seq<Address>, fee: int): (r: Wallets)
    requires Open(w)
    ensures Open(r)
    decreases |admins|
  {
    if admins == [] then w else FlatPay(Put(w, admins[0], w[admins[0]].balance + fee), admins[1..], fee)
  }

  ghost function FlatFee(w: Wallets, from: Address, admins: seq<Address>, left: int, fees: int): (r: Wallets)
    requires Open(w) && admins != []
    ensures Open(r)
  {
    FlatPay(Put(w, from, left), admins, fees / |admins|)
  }

  lemma ViewOpen(s: Ledger)
    ensures Open(View(s).acct) && forall a: Address :: View(s).acct[a].balance == BalanceAt(s, a)
  {
  }

  lemma TouchSees(s: Ledger, a: Address)
    requires Coherent(s)
    ensures Coherent(Touch(s, a)) && View(Touch(s, a)) == View(s)
  {
    hide Coherent, View, Touch, Keeps;
    TouchStep(s, a);
  }

  lemma SetBalanceView(s: Ledger, a: Address, v: int)
    requires Coherent(s)
    ensures Coherent(SetBalance(s, a, v)) && Open(View(s).acct)
    ensures View(SetBalance(s, a, v)) == View(s).(acct := Put(View(s).acct, a, v))
  {
    hide Coherent, View, SetBalance, Keeps;
    ViewOpen(s);
    SetBalanceStep(s, a, v);
  }

  lemma {:induction false} PayEachView(s: Ledger, admins: seq<Address>, fee: int)
    requires Coherent(s)
    ensures Coherent(PayEach(s, admins, fee)) && Open(View(s).acct)
    ensures View(PayEach(s, admins, fee)) == View(s).(acct := FlatPay(View(s).acct, admins, fee))
    decreases |admins|
  {
    hide Coherent, View, SetBalance, BalanceAt;
    ViewOpen(s);
    if admins != [] {
      SetBalanceView(s, admins[0], BalanceAt(s, admins[0]) + fee);
      PayEachView(Credit(s, admins[0], fee), admins[1..], fee);
    }
  }

  lemma FeeView(s: Ledger, from: Address, admins: seq<Address>, left: int, fees: int)
    requires Coherent(s) && admins != []
    ensures Open(View(s).acct)
    ensures var t := PayAdmins(SetBalance(s, from, left), admins, fees);
            Coherent(t) && View(t) == View(s).(acct := FlatFee(View(s).acct, from, admins, left, fees))
  {
    hide Coherent, View, SetBalance, PayEach;
    SetBalanceView(s, from, left);
    PayEachView(SetBalance(s, from, left), admins, fees / |admins|);
  }

  // ---- conservation --------------------------------------------------------------------------------

  /** The sum of the balances of some holders. */
  ghost function Total(w: Wallets, holders: seq<Address>): int
    requires Open(w)
  {
    if holders == [] then 0 else w[holders[0]].balance + Total(w, holders[1..])
  }

  lemma {:induction false} TotalOther(w: Wallets, holders: seq<Address>, a: Address, v: int)
    requires Open(w) && a !in holders
    ensures Total(Put(w, a, v), holders) == Total(w, holders)
  {
    if holders != [] {
      TotalOther(w, holders[1..], a, v);
    }
  }

  lemma {:induction false} TotalPut(w: Wallets, holders: seq<Address>, a: Address, v: int)
    requires Open(w) && Distinct(holders) && a in holders
    ensures Total(Put(w, a, v), holders) == Total(w, holders) + v - w[a].balance
  {
    if holders[0] == a {
      assert a !in holders[1..];
      TotalOther(w, holders[1..], a, v);
    } else {
      TotalPut(w, holders[1..], a, v);
    }
  }

  lemma {:induction false} TotalPay(w: Wallets, holders: seq<Address>, admins: seq<Address>, fee: int)
    requires Open(w) && Distinct(holders) && forall i | 0 <= i < |admins| :: admins[i] in holders
    ensures Total(FlatPay(w, admins, fee), holders) == Total(w, holders) + |admins| * fee
    decreases |admins|
  {
    if admins != [] {
      var w' := Put(w, admins[0], w[admins[0]].balance + fee);
      TotalPut(w, holders, admins[0], w[admins[0]].balance + fee);
      TotalPay(w', holders, admins[1..], fee);
      assert |admins| * fee == fee + (|admins| - 1) * fee;
    }
  }

  lemma OneMore(n: nat, fee: int)
    ensures (n + 1) * fee == n * fee + fee
  {
  }

  /** Every account gets the share once for each time it is listed, and nothing else of it
      changes. */
  lemma {:induction false} ShareOf(w: Wallets, admins: seq<Address>, fee: int, a: Address)
    requires Open(w)
    ensures FlatPay(w, admins, fee)[a] == w[a].(balance := w[a].balance + multiset(admins)[a] * fee)
    decreases |admins|
  {
    if admins != [] {
      var w' := Put(w, admins[0], w[admins[0]].balance + fee);
      ShareOf(w', admins[1..], fee, a);
      assert admins == [admins[0]] + admins[1..];
      OneMore(multiset(admins[1..])[a], fee);
    }
  }

  /** What an account shows once `charged` is taken from the payer and shared out among the
      admins: an admin gets the whole part of its share for each time it is listed. */
  function Settled(b: Basics, a: Address, tx: Tx, admins: seq<Address>, charged: int): Basics
    requires admins != []
  {
    Basics(b.balance - (if a == tx.from then charged else 0) + multiset(admins)[a] * (charged / |admins|),
           if a == tx.from then tx.nonce + 1 else b.nonce, b.code)
  }

  lemma SettledShare(w: Wallets, tx: Tx, admins: seq<Address>, charged: int, a: Address)
    requires Open(w) && admins != []
    ensures WithNonce(FlatFee(w, tx.from, admins, w[tx.from].balance - charged, charged), tx.from, tx.nonce + 1)[a] ==
            Settled(w[a], a, tx, admins, charged)
  {
    FeeShare(w, tx.from, admins, w[tx.from].balance - charged, charged, a);
  }

  predicate Holds(holders: seq<Address>, from: Address, admins: seq<Address>) {
    Distinct(holders) && from in holders && forall i | 0 <= i < |admins| :: admins[i] in holders
  }

  /** A fee loses only the remainder of its division among the admins, whether or not the
      payer is one of them and however often an admin is listed. */
  lemma FeeDust(w: Wallets, holders: seq<Address>, from: Address, admins: seq<Address>, fees: int)
    requires Open(w) && Holds(holders, from, admins) && admins != []
    ensures Total(FlatFee(w, from, admins, w[from].balance - fees, fees), holders) ==
            Total(w, holders) - fees % |admins|
  {
    var n := |admins|;
    TotalPut(w, holders, from, w[from].balance - fees);
    TotalPay(Put(w, from, w[from].balance - fees), holders, admins, fees / n);
    assert fees == n * (fees / n) + fees % n;
  }

  /** `payGasFee` succeeds exactly with enough funds, and then every account shows what the
      fee takes from it and what its listings as an admin give it. */
  lemma GasFeeShares(s: Ledger, from: Address, admins: seq<Address>, fees: nat, a: Address)
    requires Coherent(s) && admins != []
    ensures Open(View(s).acct)
    ensures PayGasFee(s, from, admins, fees).Some? <==> View(s).acct[from].balance >= fees
    ensures var o, t := View(s), PayGasFee(s, from, admins, fees);
            t.Some? ==>
              && View(t.value) == o.(acct := FlatFee(o.acct, from, admins, o.acct[from].balance - fees, fees))
              && a in View(t.value).acct
              && View(t.value).acct[a] == o.acct[a].(
                   balance := o.acct[a].balance - (if a == from then fees else 0)
                              + multiset(admins)[a] * (fees / |admins|))
  {
    hide Coherent, View, SetBalance, PayAdmins, FlatFee;
    ViewOpen(s);
    FeeView(s, from, admins, BalanceAt(s, from) - fees, fees);
    FeeShare(View(s).acct, from, admins, BalanceAt(s, from) - fees, fees, a);
  }

  lemma FeeShare(w: Wallets, from: Address, admins: seq<Address>, left: int, fees: int, a: Address)
    requires Open(w) && admins != []
    ensures FlatFee(w, from, admins, left, fees)[a] == w[a].(
              balance := (if a == from then left else w[a].balance) + multiset(admins)[a] * (fees / |admins|))
  {
    ShareOf(Put(w, from, left), admins, fees / |admins|, a);
  }

  lemma GasFeeDust(s: Ledger, holders: seq<Address>, from: Address, admins: seq<Address>, fees: nat)
    requires Coherent(s) && Holds(holders, from, admins) && admins != []
    ensures Open(View(s).acct)
    ensures var t := PayGasFee(s, from, admins, fees);
            t.Some? ==> Open(View(t.value).acct)
                        && Total(View(t.value).acct, holders) == Total(View(s).acct, holders) - fees % |admins|
  {
    hide Coherent, View, SetBalance, PayAdmins, FlatFee;
    ViewOpen(s);
    GasFeeShares(s, from, admins, fees, from);
    FeeDust(View(s).acct, holders, from, admins, fees);
  }

  /** A transfer takes the value from one account and adds it to what the other had, and
      touches nothing else that can be observed. */
  lemma TransferMoves(s: Ledger, from: Address, to: Address, value: int)
    requires Coherent(s)
    ensures Open(View(s).acct)
    ensures Transfer(s, from, to, value).Some? <==> value == 0 || View(s).acct[from].balance >= value
    ensures var w, t := View(s).acct, Transfer(s, from, to, value);
            t.Some? ==>
              && Coherent(t.value)
              && View(t.value) ==
                 View(s).(acct := Put(Put(w, from, w[from].balance - value), to, w[to].balance + value))
  {
    hide Coherent, View, SetBalance, Touch;
    ViewOpen(s);
    var w := View(s).acct;
    if value == 0 {
      assert Put(Put(w, from, w[from].balance), to, w[to].balance) == w;
    } else if View(s).acct[from].balance >= value {
      TouchSees(s, from);
      TouchSees(Touch(s, from), to);
      var t := Touch(Touch(s, from), to);
      SetBalanceView(t, from, w[from].balance - value);
      SetBalanceView(SetBalance(t, from, w[from].balance - value), to, w[to].balance + value);
    }
  }

  /** A transfer conserves the total of all balances if and only if it has no effect,
      or sender and recipient differ. */
  lemma TransferConservesIff(s: Ledger, holders: seq<Address>, from: Address, to: Address, value: int)
    requires Coherent(s) && Distinct(holders) && from in holders && to in holders
    requires Transfer(s, from, to, value).Some?
    ensures var t := Transfer(s, from, to, value).value;
            && Open(View(s).acct) && Open(View(t).acct)
            && (Total(View(t).acct, holders) == Total(View(s).acct, holders) <==> value == 0 || from != to)
  {
    hide Coherent, View, SetBalance, Touch;
    ViewOpen(s);
    var w := View(s).acct;
    if value != 0 {
      var debit := w[from].balance - value;
      TouchSees(s, from);
      TouchSees(Touch(s, from), to);
      var t := Touch(Touch(s, from), to);
      var s1 := SetBalance(t, from, debit);
      SetBalanceView(t, from, debit);
      SetBalanceView(s1, to, w[to].balance + value);
      TotalPut(w, holders, from, debit);
      ViewOpen(s1);
      TotalPut(Put(w, from, debit), holders, to, w[to].balance + value);
      ViewOpen(Transfer(s, from, to, value).value);
    }
  }

  // ---- the transaction ------------------------------------------------------------------------------

  function Start(s: Ledger, tx: Tx): Ledger {
    Snapshot(PrepareTx(s, tx.hash))
  }

  /** What a transaction does to the ledger before its fee is charged. */
  predicate Body(s: Ledger, tx: Tx, ops: seq<Op>) {
    TxRun(Start(s, tx), ops, s.nextRevision)
  }

  function Executed(s: Ledger, tx: Tx, ops: seq<Op>): Ledger
    requires Body(s, tx, ops)
  {
    RunTx(Start(s, tx), ops, s.nextRevision)
  }

  function Close(s: Ledger, tx: Tx): Ledger {
    Finalise(SetNonce(s, tx.from, tx.nonce + 1))
  }

  /** The balance is looked up, found wanting, and everything is reverted. */
  predicate Revertable(s: Ledger, tx: Tx, ops: seq<Op>)
    requires Body(s, tx, ops)
  {
    Callable(Touch(Executed(s, tx, ops), tx.from), Revert(s.nextRevision))
  }

  function Unpaid(s: Ledger, tx: Tx, ops: seq<Op>): Ledger
    requires Body(s, tx, ops) && Revertable(s, tx, ops)
  {
    Apply(Touch(Executed(s, tx, ops), tx.from), Revert(s.nextRevision))
  }

  /** `applyTransaction`; nothing is returned where the revert would panic. */
  function ApplyTransaction(s: Ledger, tx: Tx, ops: seq<Op>, admins: seq<Address>, fees: nat): Option<Ledger>
    requires Body(s, tx, ops) && admins != []
  {
    var paid := PayGasFee(Executed(s, tx, ops), tx.from, admins, fees);
    if paid.Some? then Some(Close(paid.value, tx))
    else if !Revertable(s, tx, ops) then None
    else Some(Close(PayLeft(Unpaid(s, tx, ops), tx.from, admins), tx))
  }

  predicate FeeFails(s: Ledger, tx: Tx, ops: seq<Op>, fees: nat)
    requires Body(s, tx, ops)
  {
    BalanceAt(Executed(s, tx, ops), tx.from) < fees
  }

  ghost function WithNonce(w: Wallets, a: Address, n: nat): Wallets
    requires Open(w)
  {
    w[a := w[a].(nonce := n)]
  }

  /** The state before the transaction, with the sender's balance shared out among the
      admins and the nonce moved on. */
  ghost function AfterFailure(o: Obs, tx: Tx, admins: seq<Address>): Obs
    requires Open(o.acct) && admins != []
  {
    Obs(WithNonce(FlatFee(o.acct, tx.from, admins, 0, o.acct[tx.from].balance), tx.from, tx.nonce + 1),
        o.state, o.extra.(txHash := tx.hash, access := map[], refund := 0))
  }

  lemma CloseView(s: Ledger, tx: Tx)
    requires Coherent(s)
    ensures Open(View(s).acct)
    ensures View(Close(s, tx)) ==
            Obs(WithNonce(View(s).acct, tx.from, tx.nonce + 1), View(s).state, View(s).extra.(refund := 0))
  {
    ViewOpen(s);
    hide Coherent, ViewOf, SetNonce, Finalise, Keeps;
    SetNonceStep(s, tx.from, tx.nonce + 1);
    ViewExtra(s);
    ViewExtra(SetNonce(s, tx.from, tx.nonce + 1));
    FinaliseCoherent(SetNonce(s, tx.from, tx.nonce + 1));
  }

  lemma LeftView(s: Ledger, tx: Tx, admins: seq<Address>)
    requires Coherent(s) && admins != []
    ensures Open(View(s).acct)
    ensures var o := View(s);
            View(Close(PayLeft(s, tx.from, admins), tx)) ==
            Obs(WithNonce(FlatFee(o.acct, tx.from, admins, 0, o.acct[tx.from].balance), tx.from, tx.nonce + 1),
                o.state, o.extra.(refund := 0))
  {
    hide Coherent, View, SetBalance, PayAdmins, FlatFee, Close;
    ViewOpen(s);
    FeeView(s, tx.from, admins, 0, BalanceAt(s, tx.from));
    CloseView(PayLeft(s, tx.from, admins), tx);
  }

  lemma PrepareValid(s: Ledger, tx: Tx)
    requires Valid(s) && s.revisions == []
    ensures Valid(PrepareTx(s, tx.hash))
    ensures View(PrepareTx(s, tx.hash)) == View(s).(extra := s.extra.(txHash := tx.hash, access := map[]))
  {
    hide ViewOf, Coherent, LogTracked;
    FlatOfRefines(s);
    BeginTxRefines(s, FlatOf(s), tx.hash);
    ViewExtra(s);
  }

  /** What the revert leaves to be seen: the state before the transaction, but for the stale
      accounts and the unlogged writes. */
  ghost function AfterRevert(s: Ledger, tx: Tx, ops: seq<Op>): Obs
    requires Body(s, tx, ops)
  {
    Blend(Kept(Start(s, tx), ops, s.nextRevision, 0, View(PrepareTx(s, tx.hash))),
          View(Executed(s, tx, ops)), Stale(s))
  }

  /** The revert never panics. */
  lemma UnpaidShows(s: Ledger, tx: Tx, ops: seq<Op>)
    requires Valid(s) && s.revisions == [] && Body(s, tx, ops)
    ensures Valid(Executed(s, tx, ops)) && Revertable(s, tx, ops) && Valid(Unpaid(s, tx, ops))
    ensures View(Unpaid(s, tx, ops)) == AfterRevert(s, tx, ops) && Open(AfterRevert(s, tx, ops).acct)
  {
    hide Valid, View, Callable, Touch, TxRun, Blend, Stale, Coherent;
    var p, read := PrepareTx(s, tx.hash), GetAccount(tx.from);
    PrepareValid(s, tx);
    StaleAccounts(s, p);
    StartValid(s, tx);
    TxStale(Start(s, tx), ops, s.nextRevision);
    AlwaysReadable(Executed(s, tx, ops), tx.from);
    KeptAppend(Start(s, tx), ops, s.nextRevision, read, 0, View(p));
    RevertShows(p, ops + [read]);
    ValidCoherent(Executed(s, tx, ops));
    TouchSees(Executed(s, tx, ops), tx.from);
    ViewOpen(Unpaid(s, tx, ops));
  }

  lemma StartValid(s: Ledger, tx: Tx)
    requires Valid(s) && s.revisions == []
    ensures Valid(Start(s, tx)) && Coherent(Start(s, tx)) && View(Start(s, tx)).acct == View(s).acct
  {
    hide View, Coherent, LogTracked;
    PrepareValid(s, tx);
    var p := PrepareTx(s, tx.hash);
    FlatOfRefines(p);
    SnapshotRefines(p, FlatOf(p));
    SameSnapshot(p);
  }

  lemma AfterRevertExtra(s: Ledger, tx: Tx, ops: seq<Op>)
    requires Body(s, tx, ops)
    ensures AfterRevert(s, tx, ops).extra == s.extra.(txHash := tx.hash, access := map[])
  {
    hide View, TxRun, RunTx, Kept, Stale;
    KeptBasics(Start(s, tx), ops, s.nextRevision, 0, View(PrepareTx(s, tx.hash)));
    ViewExtra(PrepareTx(s, tx.hash));
  }

  /** A transaction that cannot pay its fee leaves what its revert leaves, with the sender's
      balance there shared out and the nonce moved on. */
  lemma FailureShows(s: Ledger, tx: Tx, ops: seq<Op>, admins: seq<Address>, fees: nat)
    requires Valid(s) && s.revisions == [] && Body(s, tx, ops) && admins != [] && FeeFails(s, tx, ops, fees)
    ensures var t := ApplyTransaction(s, tx, ops, admins, fees);
            && Open(AfterRevert(s, tx, ops).acct) && t.Some?
            && View(t.value) == AfterFailure(AfterRevert(s, tx, ops), tx, admins)
  {
    hide Valid, Close, PayLeft, View, FlatFee, Body, Revertable, Unpaid, Executed, PrepareTx, AfterRevert;
    UnpaidShows(s, tx, ops);
    AfterRevertExtra(s, tx, ops);
    ValidCoherent(Unpaid(s, tx, ops));
    LeftView(Unpaid(s, tx, ops), tx, admins);
  }

  /** ... account by account. */
  lemma FailureSettles(s: Ledger, tx: Tx, ops: seq<Op>, admins: seq<Address>, fees: nat, a: Address)
    requires Valid(s) && s.revisions == [] && Body(s, tx, ops) && admins != [] && FeeFails(s, tx, ops, fees)
    ensures var o, t := AfterRevert(s, tx, ops), ApplyTransaction(s, tx, ops, admins, fees);
            && t.Some? && a in o.acct && tx.from in o.acct && a in View(t.value).acct
            && View(t.value).acct[a] == Settled(o.acct[a], a, tx, admins, o.acct[tx.from].balance)
  {
    hide Valid, View, FlatFee, Body, AfterRevert, ApplyTransaction, Settled;
    FailureShows(s, tx, ops, admins, fees);
    var w := AfterRevert(s, tx, ops).acct;
    SettledShare(w, tx, admins, w[tx.from].balance, a);
  }

  /** A transaction that can pay its fee leaves what its calls left, with the fee taken from
      the sender and shared out, the nonce moved on and the refund counter at zero. */
  lemma PaidShows(s: Ledger, tx: Tx, ops: seq<Op>, admins: seq<Address>, fees: nat)
    requires Valid(s) && s.revisions == [] && Body(s, tx, ops) && admins != [] && !FeeFails(s, tx, ops, fees)
    ensures var o, t := View(Executed(s, tx, ops)), ApplyTransaction(s, tx, ops, admins, fees);
            && Open(o.acct) && t.Some?
            && View(t.value) ==
               Obs(WithNonce(FlatFee(o.acct, tx.from, admins, o.acct[tx.from].balance - fees, fees), tx.from,
                             tx.nonce + 1),
                   o.state, o.extra.(refund := 0))
  {
    hide Valid, Coherent, View, FlatFee, Close, Body, Executed, Revertable, Unpaid, AfterRevert, PayGasFee;
    UnpaidShows(s, tx, ops);
    var e := Executed(s, tx, ops);
    ValidCoherent(e);
    ViewOpen(e);
    GasFeeShares(e, tx.from, admins, fees, tx.from);
    var paid := PayGasFee(e, tx.from, admins, fees).value;
    PaidCoherent(e, tx.from, admins, fees);
    CloseView(paid, tx);
  }

  lemma PaidCoherent(s: Ledger, from: Address, admins: seq<Address>, fees: nat)
    requires Coherent(s) && admins != [] && PayGasFee(s, from, admins, fees).Some?
    ensures Coherent(PayGasFee(s, from, admins, fees).value)
  {
    hide Coherent, View, SetBalance, PayAdmins;
    FeeView(s, from, admins, BalanceAt(s, from) - fees, fees);
  }

  /** ... account by account. */
  lemma PaidSettles(s: Ledger, tx: Tx, ops: seq<Op>, admins: seq<Address>, fees: nat, a: Address)
    requires Valid(s) && s.revisions == [] && Body(s, tx, ops) && admins != [] && !FeeFails(s, tx, ops, fees)
    ensures var o, t := View(Executed(s, tx, ops)), ApplyTransaction(s, tx, ops, admins, fees);
            && t.Some? && a in o.acct && a in View(t.value).acct
            && View(t.value).acct[a] == Settled(o.acct[a], a, tx, admins, fees)
            && View(t.value).state == o.state && View(t.value).extra == o.extra.(refund := 0)
  {
    hide Valid, View, FlatFee, Body, Executed, ApplyTransaction, Settled;
    PaidShows(s, tx, ops, admins, fees);
    SettledShare(View(Executed(s, tx, ops)).acct, tx, admins, fees, a);
  }

  /** With no stale account and every change logged, it leaves no trace but the sender's
      balance, shared out, and the nonce. */
  lemma FailureIsAtomic(s: Ledger, tx: Tx, ops: seq<Op>, admins: seq<Address>, fees: nat)
    requires Valid(s) && s.revisions == [] && NoStale(s) && Logged(ops)
    requires Body(s, tx, ops) && admins != [] && FeeFails(s, tx, ops, fees)
    ensures AtomicFailure(s, tx, ops, admins, fees)
  {
    hide Valid, Close, PayLeft, View, FlatFee, ApplyTransaction, Body, Kept, Blend, Logged;
    ViewOpen(s);
    ViewExtra(s);
    FailureShows(s, tx, ops, admins, fees);
    RestoredIfLogged(s, tx, ops);
  }

  lemma RestoredIfLogged(s: Ledger, tx: Tx, ops: seq<Op>)
    requires Valid(s) && s.revisions == [] && NoStale(s) && Logged(ops) && Body(s, tx, ops)
    ensures AfterRevert(s, tx, ops) == View(s).(extra := s.extra.(txHash := tx.hash, access := map[]))
  {
    hide Valid, View, TxRun, Kept, Blend, Logged;
    var p := PrepareTx(s, tx.hash);
    PrepareValid(s, tx);
    KeptLogged(Start(s, tx), ops, s.nextRevision, 0, View(p));
    assert Stale(s) == {};
    BlendNone(View(p), View(Executed(s, tx, ops)));
  }

  lemma AlwaysReadable(s: Ledger, a: Address)
    ensures Callable(s, GetAccount(a))
  {
  }

  lemma ValidCoherent(s: Ledger)
    requires Valid(s)
    ensures Coherent(s)
  {
  }

  // ---- exactly when a failure is atomic ---------------------------------------------------------------

  ghost predicate AtomicFailure(s: Ledger, tx: Tx, ops: seq<Op>, admins: seq<Address>, fees: nat)
    requires Body(s, tx, ops) && admins != []
  {
    var t := ApplyTransaction(s, tx, ops, admins, fees);
    Open(View(s).acct) && t.Some? && View(t.value) == AfterFailure(View(s), tx, admins)
  }

  ghost predicate AlwaysAtomic(s: Ledger, tx: Tx, admins: seq<Address>)
    requires admins != []
  {
    forall ops: seq<Op>, fees: nat | Body(s, tx, ops) && Logged(ops) && FeeFails(s, tx, ops, fees) ::
      AtomicFailure(s, tx, ops, admins, fees)
  }

  lemma StaleBody(s: Ledger, tx: Tx, a: Address, k: Key, v: Val)
    requires Proper(v)
    ensures var ops := [PutState(a, k, v)];
            Body(s, tx, ops) && Logged(ops) && Executed(s, tx, ops) == SetState(Start(s, tx), a, k, v)
  {
    hide SetState;
    var ops := [PutState(a, k, v)];
    var t := SetState(Start(s, tx), a, k, v);
    assert Legal(Start(s, tx), ops[0]) && InTx(ops[0], s.nextRevision);
    assert ops[1..] == [];
    assert TxRun(t, ops[1..], s.nextRevision) && RunTx(t, ops[1..], s.nextRevision) == t;
  }

  lemma StaleWriteKept(s: Ledger, tx: Tx, a: Address, k: Key, v: Val)
    requires Valid(s) && s.revisions == [] && !Tracks(s, a) && Proper(v)
    ensures Body(s, tx, [PutState(a, k, v)])
    ensures (a, k) in AfterRevert(s, tx, [PutState(a, k, v)]).state
    ensures AfterRevert(s, tx, [PutState(a, k, v)]).state[(a, k)] == v
  {
    hide Valid, Coherent, Start, ViewOf, SetState, Kept, Keeps, Body, Executed;
    var ops := [PutState(a, k, v)];
    StaleBody(s, tx, a, k, v);
    StartValid(s, tx);
    SetStateStep(Start(s, tx), a, k, v);
    UnpaidShows(s, tx, ops);
    StateTotal(Unpaid(s, tx, ops), a, k);
  }

  /** A stale account keeps a write of the transaction whose fee could not be paid. */
  lemma StaleSurvives(s: Ledger, tx: Tx, admins: seq<Address>, a: Address)
    requires Valid(s) && s.revisions == [] && !Tracks(s, a) && admins != []
    ensures !AlwaysAtomic(s, tx, admins)
  {
    hide Valid, View, Body, Executed, AfterRevert, ApplyTransaction, FlatFee;
    var k: Key := [];
    StateTotal(s, a, k);
    var v: Val := if View(s).state[(a, k)] == None then Some([1]) else None;
    var ops := [PutState(a, k, v)];
    StaleBody(s, tx, a, k, v);
    StaleWriteKept(s, tx, a, k, v);
    var have := BalanceAt(Executed(s, tx, ops), tx.from);
    var fees: nat := if have < 0 then 0 else have + 1;
    assert FeeFails(s, tx, ops, fees);
    FailureShows(s, tx, ops, admins, fees);
    assert !AtomicFailure(s, tx, ops, admins, fees);
  }

  /** The fee failures of every transaction that logs its changes are atomic if and only if
      no account is stale when the transaction starts. */
  lemma AtomicIffNoStale(s: Ledger, tx: Tx, admins: seq<Address>)
    requires Valid(s) && s.revisions == [] && admins != []
    ensures AlwaysAtomic(s, tx, admins) <==> NoStale(s)
  {
    hide Valid, Body, FeeFails, ApplyTransaction, AfterFailure, View;
    if NoStale(s) {
      forall ops: seq<Op>, fees: nat | Body(s, tx, ops) && Logged(ops) && FeeFails(s, tx, ops, fees)
        ensures AtomicFailure(s, tx, ops, admins, fees)
      {
        FailureIsAtomic(s, tx, ops, admins, fees);
      }
    } else {
      var a :| a in s.accounts && !s.accounts[a].tracked;
      StaleSurvives(s, tx, admins, a);
    }
  }

  // ---- the total over a whole transaction ---------------------------------------------------------------

  /** The calls of a transfer, after the snapshot that the transaction takes for itself: a
      refused transfer goes back to it. */
  function MoveOps(s: Ledger, from: Address, to: Address, value: int): seq<Op> {
    if value == 0 then []
    else if BalanceAt(s, from) < value then [GetAccount(from)] + [Revert(s.nextRevision)]
    else [GetAccount(from)] + ([GetAccount(to)] +
         ([PutBalance(from, BalanceAt(s, from) - value)] + [PutBalance(to, BalanceAt(s, to) + value)]))
  }

  function TransferOps(s: Ledger, from: Address, to: Address, value: int): seq<Op> {
    [TakeSnapshot] + MoveOps(s, from, to, value)
  }

  lemma TxCons(s: Ledger, op: Op, rest: seq<Op>, id: nat)
    requires Legal(s, op) && InTx(op, id) && TxRun(Apply(s, op), rest, id)
    ensures TxRun(s, [op] + rest, id) && RunTx(s, [op] + rest, id) == RunTx(Apply(s, op), rest, id)
  {
    hide Callable, InTx, Apply, KeyKnown, CodeFits;
    var ops := [op] + rest;
    assert ops[0] == op && ops[1..] == rest;
  }

  lemma TxOne(s: Ledger, op: Op, id: nat)
    requires Legal(s, op) && InTx(op, id)
    ensures TxRun(s, [op], id) && RunTx(s, [op], id) == Apply(s, op)
  {
    hide Callable, InTx, Apply, KeyKnown, CodeFits;
    TxCons(s, op, [], id);
    assert [op] + [] == [op];
  }

  /** Looking the sender up and going back shows nothing. */
  lemma RefusedShows(s: Ledger, from: Address)
    requires Valid(s)
    ensures var t := Touch(Snapshot(s), from);
            && Callable(t, Revert(s.nextRevision)) && Coherent(Apply(t, Revert(s.nextRevision)))
            && View(Apply(t, Revert(s.nextRevision))) == View(s)
  {
    hide Valid, Coherent, View, Touch, Callable, Kept, Blend, Stale, Snapshot;
    var ops := [GetAccount(from)];
    AlwaysReadable(Snapshot(s), from);
    TxOne(Snapshot(s), GetAccount(from), s.nextRevision);
    RevertShows(s, ops);
    KeptLogged(Snapshot(s), ops, s.nextRevision, |s.revisions|, View(s));
    SnapshotKeeps(s);
    TouchSees(Snapshot(s), from);
    BlendSelf(View(s), Stale(s));
    ValidCoherent(Apply(Touch(Snapshot(s), from), Revert(s.nextRevision)));
  }

  lemma SameBalances(s: Ledger, a: Address)
    ensures BalanceAt(Snapshot(s), a) == BalanceAt(s, a)
  {
  }

  lemma MoveRun(s: Ledger, from: Address, to: Address, value: int, id: nat)
    requires Valid(s) && s.nextRevision > id
    ensures var ops, inner := MoveOps(s, from, to, value), Snapshot(s);
            && TxRun(inner, ops, id) && Logged(ops)
            && var t := Transfer(inner, from, to, value);
               if t.Some? then RunTx(inner, ops, id) == t.value
               else Callable(Touch(inner, from), Revert(s.nextRevision))
                    && RunTx(inner, ops, id) == Apply(Touch(inner, from), Revert(s.nextRevision))
  {
    hide SetBalance, Snapshot, BalanceAt, Touch, Valid, Coherent, View, Revertible, RevertToSnapshot;
    var inner := Snapshot(s);
    SameBalances(s, from);
    SameBalances(s, to);
    if value != 0 {
      var s1 := Touch(inner, from);
      if BalanceAt(s, from) < value {
        RefusedShows(s, from);
        TxOne(s1, Revert(s.nextRevision), id);
        TxCons(inner, GetAccount(from), [Revert(s.nextRevision)], id);
      } else {
        var debit := PutBalance(from, BalanceAt(s, from) - value);
        var credit := PutBalance(to, BalanceAt(s, to) + value);
        var s2 := Touch(s1, to);
        TxOne(Apply(s2, debit), credit, id);
        TxCons(s2, debit, [credit], id);
        TxCons(s1, GetAccount(to), [debit] + [credit], id);
        TxCons(inner, GetAccount(from), [GetAccount(to)] + ([debit] + [credit]), id);
      }
    }
  }

  lemma TransferBody(s: Ledger, tx: Tx, to: Address, value: int)
    requires Valid(s) && s.revisions == []
    ensures var start := Start(s, tx);
            var ops := TransferOps(start, tx.from, to, value);
            && Body(s, tx, ops) && Logged(ops)
            && var inner := Snapshot(start);
               var t := Transfer(inner, tx.from, to, value);
               if t.Some? then Executed(s, tx, ops) == t.value
               else Callable(Touch(inner, tx.from), Revert(start.nextRevision))
                    && Executed(s, tx, ops) == Apply(Touch(inner, tx.from), Revert(start.nextRevision))
  {
    hide MoveOps, TxRun, RunTx, Transfer, Valid, Touch, RevertToSnapshot, Revertible;
    var start, id := Start(s, tx), s.nextRevision;
    StartValid(s, tx);
    MoveRun(start, tx.from, to, value, id);
    TxCons(start, TakeSnapshot, MoveOps(start, tx.from, to, value), id);
  }

  lemma {:induction false} TotalNonce(w: Wallets, holders: seq<Address>, a: Address, n: nat)
    requires Open(w)
    ensures Total(WithNonce(w, a, n), holders) == Total(w, holders)
  {
    if holders != [] {
      TotalNonce(w, holders[1..], a, n);
    }
  }

  lemma PaidTotal(s: Ledger, tx: Tx, ops: seq<Op>, admins: seq<Address>, fees: nat, holders: seq<Address>)
    requires Body(s, tx, ops) && admins != [] && Coherent(Executed(s, tx, ops)) && !FeeFails(s, tx, ops, fees)
    requires Holds(holders, tx.from, admins)
    ensures Open(View(Executed(s, tx, ops)).acct)
    ensures var t := ApplyTransaction(s, tx, ops, admins, fees);
            && t.Some? && Open(View(t.value).acct)
            && Total(View(t.value).acct, holders) == Total(View(Executed(s, tx, ops)).acct, holders) - fees % |admins|
  {
    hide Coherent, View, Close, SetBalance, PayAdmins, Body, Executed;
    var e := Executed(s, tx, ops);
    ViewOpen(e);
    GasFeeDust(e, holders, tx.from, admins, fees);
    FeeView(e, tx.from, admins, BalanceAt(e, tx.from) - fees, fees);
    var paid := PayGasFee(e, tx.from, admins, fees).value;
    CloseView(paid, tx);
    TotalNonce(View(paid).acct, holders, tx.from, tx.nonce + 1);
    ViewOpen(Close(paid, tx));
  }

  lemma UnpaidTotal(o: Obs, tx: Tx, admins: seq<Address>, holders: seq<Address>)
    requires Open(o.acct) && admins != [] && Holds(holders, tx.from, admins)
    ensures Open(AfterFailure(o, tx, admins).acct)
    ensures Total(AfterFailure(o, tx, admins).acct, holders) ==
            Total(o.acct, holders) - o.acct[tx.from].balance % |admins|
  {
    hide FlatFee;
    var have := o.acct[tx.from].balance;
    FeeDust(o.acct, holders, tx.from, admins, have);
    TotalNonce(FlatFee(o.acct, tx.from, admins, 0, have), holders, tx.from, tx.nonce + 1);
  }

  /** The transfer goes through and moves something. */
  predicate Moves(s: Ledger, from: Address, value: int) {
    value != 0 && BalanceAt(s, from) >= value
  }

  /** What the recipient keeps of the value: a revert takes it back unless the account is
      stale. */
  function Credited(s: Ledger, from: Address, to: Address, value: int, reverted: bool): int {
    if Moves(s, from, value) && (reverted ==> !Tracks(s, to)) then value else 0
  }

  /** What the sender has lost; a sender that pays itself loses nothing, because its credit
      is written over its debit. */
  function Debited(s: Ledger, from: Address, to: Address, value: int, reverted: bool): int {
    if from != to && Moves(s, from, value) && (reverted ==> !Tracks(s, from)) then value else 0
  }

  ghost function Moved(w: Wallets, from: Address, to: Address, debit: int, credit: int): Wallets
    requires Open(w)
  {
    Put(Put(w, from, w[from].balance - debit), to, w[to].balance + credit)
  }

  lemma TotalMoved(w: Wallets, holders: seq<Address>, from: Address, to: Address, debit: int, credit: int)
    requires Open(w) && Distinct(holders) && from in holders && to in holders && (from == to ==> debit == 0)
    ensures Open(Moved(w, from, to, debit, credit))
    ensures Total(Moved(w, from, to, debit, credit), holders) == Total(w, holders) - debit + credit
    ensures Moved(w, from, to, debit, credit)[from].balance ==
            w[from].balance - debit + if from == to then credit else 0
  {
    TotalPut(w, holders, from, w[from].balance - debit);
    TotalPut(Put(w, from, w[from].balance - debit), holders, to, w[to].balance + credit);
  }

  ghost function Transferred(s: Ledger, tx: Tx, to: Address, value: int, reverted: bool): Wallets
    requires Open(View(s).acct)
  {
    Moved(View(s).acct, tx.from, to, Debited(s, tx.from, to, value, reverted),
          Credited(s, tx.from, to, value, reverted))
  }

  lemma TransferSeen(s: Ledger, tx: Tx, to: Address, value: int)
    requires Valid(s) && s.revisions == []
    ensures Open(View(s).acct)
    ensures var ops := TransferOps(Start(s, tx), tx.from, to, value);
            && Body(s, tx, ops) && Logged(ops) && Coherent(Executed(s, tx, ops))
            && View(Executed(s, tx, ops)).acct == Transferred(s, tx, to, value, false)
  {
    hide Valid, Coherent, View, Start, SetBalance, Touch, TransferOps, Body, Executed, Callable, Apply, Snapshot;
    ViewOpen(s);
    StartValid(s, tx);
    TransferBody(s, tx, to, value);
    var start := Start(s, tx);
    var inner := Snapshot(start);
    ViewOpen(start);
    SnapshotKeeps(start);
    ViewOpen(inner);
    TransferMoves(inner, tx.from, to, value);
    if Transfer(inner, tx.from, to, value).None? {
      RefusedShows(start, tx.from);
    }
  }

  /** After the revert, sender and recipient hold what they held, but for what a stale one of
      them keeps. */
  lemma TransferReverted(s: Ledger, tx: Tx, to: Address, value: int)
    requires Valid(s) && s.revisions == []
    ensures Open(View(s).acct)
    ensures var ops := TransferOps(Start(s, tx), tx.from, to, value);
            Body(s, tx, ops) && AfterRevert(s, tx, ops).acct == Transferred(s, tx, to, value, true)
  {
    hide Valid, Coherent, View, TxRun, RunTx, Kept, BalanceAt, TransferOps;
    ViewOpen(s);
    var ops := TransferOps(Start(s, tx), tx.from, to, value);
    TransferSeen(s, tx, to, value);
    PrepareValid(s, tx);
    KeptBasics(Start(s, tx), ops, s.nextRevision, 0, View(PrepareTx(s, tx.hash)));
  }

  /** What the total gains over a transfer transaction, apart from the remainder of the
      division among the admins. */
  function Gained(s: Ledger, tx: Tx, to: Address, value: int, failed: bool): int {
    Credited(s, tx.from, to, value, failed) - Debited(s, tx.from, to, value, failed)
  }

  /** What is divided among the admins: the fee, or what the sender has after the revert. */
  function Charged(s: Ledger, tx: Tx, to: Address, value: int, fees: nat, failed: bool): int {
    if failed
    then BalanceAt(s, tx.from) - Debited(s, tx.from, to, value, true)
         + (if tx.from == to then Credited(s, tx.from, to, value, true) else 0)
    else fees
  }

  /** When a transfer transaction neither creates nor destroys value.  One that can pay its fee
      does so unless it pays itself; one that cannot does so when the revert takes back both
      halves of the transfer or neither. */
  predicate Conserves(s: Ledger, tx: Tx, to: Address, value: int, failed: bool) {
    || !Moves(s, tx.from, value)
    || (if tx.from == to then failed && Tracks(s, to) else failed ==> (Tracks(s, tx.from) <==> Tracks(s, to)))
  }

  /** Over every transfer transaction the total of all balances loses the remainder of what
      is charged, and apart from that stays the same exactly when `Conserves` says so. */
  lemma TransferTotal(
      s: Ledger, tx: Tx, to: Address, value: int, admins: seq<Address>, fees: nat, holders: seq<Address>)
    requires Valid(s) && s.revisions == [] && admins != []
    requires Holds(holders, tx.from, admins) && to in holders
    ensures Open(View(s).acct)
    ensures var ops := TransferOps(Start(s, tx), tx.from, to, value);
            && Body(s, tx, ops)
            && var failed := FeeFails(s, tx, ops, fees);
               var t := ApplyTransaction(s, tx, ops, admins, fees);
               && t.Some? && Open(View(t.value).acct)
               && Total(View(t.value).acct, holders) ==
                  Total(View(s).acct, holders) + Gained(s, tx, to, value, failed)
                  - Charged(s, tx, to, value, fees, failed) % |admins|
               && (Gained(s, tx, to, value, failed) == 0 <==> Conserves(s, tx, to, value, failed))
  {
    hide Valid, Coherent, View, Start, ApplyTransaction, Body, Executed, AfterFailure, TransferOps, AfterRevert, Moved,
      Tracks, Total;
    ViewOpen(s);
    var ops := TransferOps(Start(s, tx), tx.from, to, value);
    TransferSeen(s, tx, to, value);
    var failed := FeeFails(s, tx, ops, fees);
    TotalMoved(View(s).acct, holders, tx.from, to,
               Debited(s, tx.from, to, value, failed), Credited(s, tx.from, to, value, failed));
    if failed {
      FailureShows(s, tx, ops, admins, fees);
      TransferReverted(s, tx, to, value);
      UnpaidTotal(AfterRevert(s, tx, ops), tx, admins, holders);
    } else {
      PaidTotal(s, tx, ops, admins, fees, holders);
    }
  }

  /** A stale recipient keeps a payment that the sender, loaded in this transaction, gets
      back: value comes into being.  With the roles exchanged it is destroyed. */
  lemma StalePayment(s: Ledger, tx: Tx, to: Address, value: int, fees: nat)
    requires Valid(s) && s.revisions == [] && tx.from != to && value > 0
    requires value <= BalanceAt(s, tx.from) < value + fees
    ensures var ops := TransferOps(Start(s, tx), tx.from, to, value);
            Body(s, tx, ops) && FeeFails(s, tx, ops, fees)
    ensures Tracks(s, tx.from) && !Tracks(s, to) ==> Gained(s, tx, to, value, true) == value
    ensures !Tracks(s, tx.from) && Tracks(s, to) ==> Gained(s, tx, to, value, true) == -value
  {
    hide Valid, Coherent, View, Start, Body, TransferOps, Tracks, Executed;
    ViewOpen(s);
    var ops := TransferOps(Start(s, tx), tx.from, to, value);
    TransferSeen(s, tx, to, value);
    ViewOpen(Executed(s, tx, ops));
  }

  const PAYER: Address := [1]
  const PAYEE: Address := [2]

  /** A ledger in which the payee stayed live from an earlier transaction and the payer is
      only stored. */
  const LATE_PAYMENT := Ledger(
    Base(Cache(map[], map[], map[]), Tables(map[PAYER := Inner(0, 10, None)], map[], map[])),
    map[PAYEE := NEW_ACCOUNT.(tracked := false)], [], map[], [], 0, Extra(0, map[], map[], 0, [], map[]))

  /** Ten units appear out of nothing. */
  lemma ValueAppears(tx: Tx, fees: nat)
    requires tx.from == PAYER && fees > 0
    ensures var s, holders := LATE_PAYMENT, [PAYER, PAYEE];
            var ops := TransferOps(Start(s, tx), PAYER, PAYEE, 10);
            && Valid(s) && s.revisions == [] && Body(s, tx, ops)
            && var t := ApplyTransaction(s, tx, ops, [PAYER], fees);
               && t.Some? && Open(View(s).acct) && Open(View(t.value).acct)
               && Total(View(t.value).acct, holders) == Total(View(s).acct, holders) + 10
  {
    hide View, Start, Body, ApplyTransaction, TransferOps, Executed, Total;
    var s, holders := LATE_PAYMENT, [PAYER, PAYEE];
    assert Valid(s) && BalanceAt(s, PAYER) == 10 && Tracks(s, PAYER) && !Tracks(s, PAYEE);
    assert holders[0] == PAYER && holders[1] == PAYEE;
    StalePayment(s, tx, PAYEE, 10, fees);
    TransferTotal(s, tx, PAYEE, 10, [PAYER], fees, holders);
  }

  // ---- blocks ---------------------------------------------------------------------------------------------

  /** The calls that pay every admin. */
  function PayOps(s: Ledger, admins: seq<Address>, fee: int): seq<Op>
    decreases |admins|
  {
    if admins == [] then []
    else [PutBalance(admins[0], BalanceAt(s, admins[0]) + fee)] + PayOps(Credit(s, admins[0], fee), admins[1..], fee)
  }

  /** The calls that charge the sender, pay the admins, move the nonce on and close. */
  function FeeOps(s: Ledger, tx: Tx, admins: seq<Address>, left: int, fees: int): seq<Op>
    requires admins != []
  {
    [PutBalance(tx.from, left)]
    + (PayOps(SetBalance(s, tx.from, left), admins, fees / |admins|) + ([PutNonce(tx.from, tx.nonce + 1)] + [EndTx]))
  }

  lemma OneCall(s: Ledger, op: Op, rest: seq<Op>)
    requires Legal(s, op) && LegalRun(Apply(s, op), rest)
    ensures LegalRun(s, [op] + rest) && Run(s, [op] + rest) == Run(Apply(s, op), rest)
  {
    hide Callable, Apply, KeyKnown, CodeFits;
    var ops := [op] + rest;
    assert ops[0] == op && ops[1..] == rest;
  }

  lemma LastCall(s: Ledger, op: Op)
    requires Legal(s, op)
    ensures LegalRun(s, [op]) && Run(s, [op]) == Apply(s, op)
  {
    hide Callable, Apply, KeyKnown, CodeFits;
    OneCall(s, op, []);
    assert [op] + [] == [op];
  }

  lemma {:induction false} PayIsRun(s: Ledger, admins: seq<Address>, fee: int)
    ensures LegalRun(s, PayOps(s, admins, fee)) && Run(s, PayOps(s, admins, fee)) == PayEach(s, admins, fee)
    decreases |admins|
  {
    hide SetBalance, BalanceAt, LegalRun, Run;
    if admins != [] {
      var op := PutBalance(admins[0], BalanceAt(s, admins[0]) + fee);
      PayIsRun(Credit(s, admins[0], fee), admins[1..], fee);
      OneCall(s, op, PayOps(Credit(s, admins[0], fee), admins[1..], fee));
    } else {
      NoCalls(s);
    }
  }

  lemma NoCalls(s: Ledger)
    ensures LegalRun(s, []) && Run(s, []) == s
  {
  }

  lemma FeeIsRun(s: Ledger, tx: Tx, admins: seq<Address>, left: int, fees: int)
    requires admins != []
    ensures var ops := FeeOps(s, tx, admins, left, fees);
            LegalRun(s, ops) && Run(s, ops) == Close(PayAdmins(SetBalance(s, tx.from, left), admins, fees), tx)
  {
    hide SetBalance, SetNonce, Finalise, PayOps, PayEach, LegalRun, Run;
    var charged := SetBalance(s, tx.from, left);
    var paid := PayAdmins(charged, admins, fees);
    var nonce := PutNonce(tx.from, tx.nonce + 1);
    LastCall(Apply(paid, nonce), EndTx);
    OneCall(paid, nonce, [EndTx]);
    PayIsRun(charged, admins, fees / |admins|);
    RunConcat(charged, PayOps(charged, admins, fees / |admins|), [nonce] + [EndTx]);
    OneCall(s, PutBalance(tx.from, left), PayOps(charged, admins, fees / |admins|) + ([nonce] + [EndTx]));
  }

  /** A transaction as the block executor gets it. */
  datatype Call = Call(tx: Tx, ops: seq<Op>, admins: seq<Address>, fees: nat)

  predicate Admissible(s: Ledger, c: Call) {
    Body(s, c.tx, c.ops) && c.admins != []
  }

  /** Every call on the ledger that a transaction makes after its body. */
  function SettleOps(s: Ledger, c: Call): seq<Op>
    requires Admissible(s, c) && Revertable(s, c.tx, c.ops)
  {
    var e, id := Executed(s, c.tx, c.ops), s.nextRevision;
    if FeeFails(s, c.tx, c.ops, c.fees) then
      var u := Unpaid(s, c.tx, c.ops);
      [GetAccount(c.tx.from)] + ([Revert(id)] + FeeOps(u, c.tx, c.admins, 0, BalanceAt(u, c.tx.from)))
    else FeeOps(e, c.tx, c.admins, BalanceAt(e, c.tx.from) - c.fees, c.fees)
  }

  function TxOps(s: Ledger, c: Call): seq<Op>
    requires Admissible(s, c) && Revertable(s, c.tx, c.ops)
  {
    [BeginTx(c.tx.hash)] + ([TakeSnapshot] + (c.ops + SettleOps(s, c)))
  }

  lemma SettleIsRun(s: Ledger, c: Call)
    requires Admissible(s, c) && Revertable(s, c.tx, c.ops)
    ensures var t := ApplyTransaction(s, c.tx, c.ops, c.admins, c.fees);
            && t.Some? && LegalRun(Executed(s, c.tx, c.ops), SettleOps(s, c))
            && Run(Executed(s, c.tx, c.ops), SettleOps(s, c)) == t.value
  {
    hide FeeOps, LegalRun, Run, Body, Executed, SetBalance, Close, PayAdmins, Touch;
    var e, u, id := Executed(s, c.tx, c.ops), Unpaid(s, c.tx, c.ops), s.nextRevision;
    if FeeFails(s, c.tx, c.ops, c.fees) {
      FeeIsRun(u, c.tx, c.admins, 0, BalanceAt(u, c.tx.from));
      var fee := FeeOps(u, c.tx, c.admins, 0, BalanceAt(u, c.tx.from));
      OneCall(Touch(e, c.tx.from), Revert(id), fee);
      OneCall(e, GetAccount(c.tx.from), [Revert(id)] + fee);
    } else {
      FeeIsRun(e, c.tx, c.admins, BalanceAt(e, c.tx.from) - c.fees, c.fees);
    }
  }

  lemma TxOpsRun(s: Ledger, c: Call)
    requires s.revisions == [] && Admissible(s, c) && Revertable(s, c.tx, c.ops)
    ensures LegalRun(s, TxOps(s, c))
    ensures Some(Run(s, TxOps(s, c))) == ApplyTransaction(s, c.tx, c.ops, c.admins, c.fees)
  {
    hide LegalRun, Run, SettleOps, ApplyTransaction, TxRun, Revertable, PrepareTx, Snapshot;
    SettleIsRun(s, c);
    var start := Start(s, c.tx);
    TxIsRun(start, c.ops, s.nextRevision);
    RunConcat(start, c.ops, SettleOps(s, c));
    OneCall(PrepareTx(s, c.tx.hash), TakeSnapshot, c.ops + SettleOps(s, c));
    OneCall(s, BeginTx(c.tx.hash), [TakeSnapshot] + (c.ops + SettleOps(s, c)));
  }

  /** A whole transaction goes through, and is a run of calls that keep the ledger valid. */
  lemma TransactionIsRun(s: Ledger, c: Call)
    requires Valid(s) && s.revisions == [] && Admissible(s, c)
    ensures Revertable(s, c.tx, c.ops)
    ensures var t := ApplyTransaction(s, c.tx, c.ops, c.admins, c.fees);
            && t.Some? && LegalRun(s, TxOps(s, c)) && Run(s, TxOps(s, c)) == t.value
            && Valid(t.value) && t.value.revisions == []
  {
    hide Valid, LegalRun, Run, TxOps, ApplyTransaction, Body, Revertable, Coherent, View;
    UnpaidShows(s, c.tx, c.ops);
    TxOpsRun(s, c);
    RunValid(s, TxOps(s, c));
    ClosedRevisions(s, c);
  }

  lemma RunValid(s: Ledger, ops: seq<Op>)
    requires Valid(s) && LegalRun(s, ops)
    ensures Valid(Run(s, ops))
  {
    hide Valid, LegalRun, Run, Refines;
    FlatOfRefines(s);
    RunRefines(s, FlatOf(s), ops);
    RefinedValid(Run(s, ops), FlatRun(s, FlatOf(s), ops));
  }

  lemma ClosedRevisions(s: Ledger, c: Call)
    requires Admissible(s, c)
    ensures var t := ApplyTransaction(s, c.tx, c.ops, c.admins, c.fees); t.Some? ==> t.value.revisions == []
  {
    hide PayAdmins, SetBalance, SetNonce, Unpaid, Executed, Revertable;
  }

  /** The transactions of a block, one after the other. */
  predicate BlockRun(s: Ledger, calls: seq<Call>)
    decreases |calls|
  {
    calls == [] ||
    (Admissible(s, calls[0]) &&
     var c := calls[0];
     var t := ApplyTransaction(s, c.tx, c.ops, c.admins, c.fees);
     t.Some? ==> BlockRun(t.value, calls[1..]))
  }

  function RunBlock(s: Ledger, calls: seq<Call>): Option<Ledger>
    requires BlockRun(s, calls)
    decreases |calls|
  {
    if calls == [] then Some(s)
    else
      var c := calls[0];
      var t := ApplyTransaction(s, c.tx, c.ops, c.admins, c.fees);
      if t.None? then None else RunBlock(t.value, calls[1..])
  }

  /** However many transactions a block has, and whatever they do, executing it never fails
      and is a run of calls that the flat machine follows. */
  lemma {:induction false} BlockIsRun(s: Ledger, calls: seq<Call>) returns (ops: seq<Op>)
    requires Valid(s) && s.revisions == [] && BlockRun(s, calls)
    ensures RunBlock(s, calls).Some? && LegalRun(s, ops) && Run(s, ops) == RunBlock(s, calls).value
    ensures Valid(RunBlock(s, calls).value) && RunBlock(s, calls).value.revisions == []
    decreases |calls|
  {
    hide Valid, LegalRun, Run, ApplyTransaction, TxOps, Body;
    ops := [];
    NoCalls(s);
    if calls != [] {
      var c := calls[0];
      TransactionIsRun(s, c);
      var t := ApplyTransaction(s, c.tx, c.ops, c.admins, c.fees).value;
      var rest := BlockIsRun(t, calls[1..]);
      RunConcat(s, TxOps(s, c), rest);
      ops := TxOps(s, c) + rest;
    }
  }

  lemma BlockRefines(s: Ledger, f: Flat, calls: seq<Call>) returns (ops: seq<Op>)
    requires Refines(s, f) && s.revisions == [] && BlockRun(s, calls)
    ensures RunBlock(s, calls).Some? && LegalRun(s, ops)
    ensures Refines(RunBlock(s, calls).value, FlatRun(s, f, ops))
  {
    hide Refines, LegalRun, Run, BlockRun, RunBlock, Valid;
    RefinedValid(s, f);
    ops := BlockIsRun(s, calls);
    RunRefines(s, f, ops);
  }
}
