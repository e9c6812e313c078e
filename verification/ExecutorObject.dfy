/** The executor of handle.go as an object: the loops and calls of `applyTransaction` on
    the ledger object, proved to compute the functions of Executor. */
module ExecutorObject {
  import opened GoBytes
  import opened LedgerModel
  import opened LedgerView
  import FlatLedger
  import LedgerUndo
  import UndoExact
  import E = Executor
  import L = SimpleLedger

  lemma TouchTwice(s: Ledger, a: Address)
    ensures a in Touch(s, a).accounts && E.BalanceAt(Touch(s, a), a) == E.BalanceAt(s, a)
    ensures forall v: int :: SetBalance(Touch(s, a), a, v) == SetBalance(s, a, v)
  {
    assert Touch(Touch(s, a), a) == Touch(s, a);
  }

  lemma TouchOther(s: Ledger, a: Address, b: Address)
    ensures E.BalanceAt(Touch(s, a), b) == E.BalanceAt(s, b)
  {
    if b == a {
      TouchTwice(s, a);
    }
  }

  /** New objects stay new over two calls. */
  twostate lemma Grown(ledger: L.SimpleLedger, new r: set<object>)
    requires forall o: object | o in r && o !in old(ledger.Repr()) :: !old(allocated(o))
    requires forall o: object | o in ledger.Repr() && o !in r :: !old(allocated(o))
    ensures fresh(ledger.Repr() - old(ledger.Repr()))
  {
  }

  class BlockExecutor {
    const ledger: L.SimpleLedger
    const admins: seq<Address>

    constructor (ledger: L.SimpleLedger, admins: seq<Address>)
      ensures this.ledger == ledger && this.admins == admins
    {
      this.ledger, this.admins := ledger, admins;
    }

    method GetBalance(a: Address) returns (v: int)
      requires ledger.Valid()
      modifies ledger.Repr()
      ensures ledger.Valid() && fresh(ledger.Repr() - old(ledger.Repr()))
      ensures ledger.State() == Touch(old(ledger.State()), a) && v == E.BalanceAt(old(ledger.State()), a)
    {
      TouchTwice(ledger.State(), a);
      hide Touch;
      var acc := ledger.GetOrCreateAccount(a);
      v := BalanceOf(if acc.dirty.Some? then acc.dirty else acc.origin);
      assert ledger.State().accounts[a] == acc.Fields().(tracked := acc.changer == ledger.changer);
    }

    /** `GetBalance` and `SetBalance` on one account. */
    method AddTo(a: Address, v: int)
      requires ledger.Valid()
      modifies ledger.Repr()
      ensures ledger.Valid() && fresh(ledger.Repr() - old(ledger.Repr()))
      ensures ledger.State() == E.Credit(old(ledger.State()), a, v)
    {
      hide L.SimpleLedger.State, L.SimpleLedger.Valid, L.SimpleLedger.Repr, Touch, SetBalance;
      TouchTwice(ledger.State(), a);
      var balance := GetBalance(a);
      ghost var r := ledger.Repr();
      ledger.SetBalance(a, balance + v);
      Grown(ledger, r);
    }

    method PayAdmins(fees: int)
      requires ledger.Valid() && admins != []
      modifies ledger.Repr()
      ensures ledger.Valid() && fresh(ledger.Repr() - old(ledger.Repr()))
      ensures ledger.State() == E.PayAdmins(old(ledger.State()), admins, fees)
    {
      hide L.SimpleLedger.State, L.SimpleLedger.Valid, L.SimpleLedger.Repr, E.Credit;
      var fee := fees / |admins|;
      var i := 0;
      while i < |admins|
        invariant 0 <= i <= |admins|
        invariant ledger.Valid() && fresh(ledger.Repr() - old(ledger.Repr()))
        invariant E.PayEach(ledger.State(), admins[i..], fee) == E.PayEach(old(ledger.State()), admins, fee)
      {
        assert admins[i..][0] == admins[i] && admins[i..][1..] == admins[i + 1..];
        ghost var r := ledger.Repr();
        AddTo(admins[i], fee);
        Grown(ledger, r);
        i := i + 1;
      }
      assert admins[i..] == [];
    }

    /** The payer is set to what is left, and the admins are paid. */
    method Charge(from: Address, left: int, fees: int)
      requires ledger.Valid() && admins != []
      modifies ledger.Repr()
      ensures ledger.Valid() && fresh(ledger.Repr() - old(ledger.Repr()))
      ensures ledger.State() == E.PayAdmins(SetBalance(old(ledger.State()), from, left), admins, fees)
    {
      hide L.SimpleLedger.State, L.SimpleLedger.Valid, L.SimpleLedger.Repr, SetBalance, E.PayAdmins;
      ledger.SetBalance(from, left);
      ghost var r := ledger.Repr();
      PayAdmins(fees);
      Grown(ledger, r);
    }

    method PayGasFee(from: Address, fees: nat) returns (ok: bool)
      requires ledger.Valid() && admins != []
      modifies ledger.Repr()
      ensures ledger.Valid() && fresh(ledger.Repr() - old(ledger.Repr()))
      ensures var paid := E.PayGasFee(old(ledger.State()), from, admins, fees);
              if ok then paid == Some(ledger.State())
              else paid.None? && ledger.State() == Touch(old(ledger.State()), from)
    {
      hide L.SimpleLedger.State, L.SimpleLedger.Valid, L.SimpleLedger.Repr, Touch, SetBalance, E.PayAdmins;
      TouchTwice(ledger.State(), from);
      var have := GetBalance(from);
      if have < fees {
        return false;
      }
      ghost var r := ledger.Repr();
      Charge(from, have - fees, fees);
      Grown(ledger, r);
      return true;
    }

    method PayLeftAsGasFee(from: Address)
      requires ledger.Valid() && admins != []
      modifies ledger.Repr()
      ensures ledger.Valid() && fresh(ledger.Repr() - old(ledger.Repr()))
      ensures ledger.State() == E.PayLeft(old(ledger.State()), from, admins)
    {
      hide L.SimpleLedger.State, L.SimpleLedger.Valid, L.SimpleLedger.Repr, Touch, SetBalance, E.PayAdmins;
      TouchTwice(ledger.State(), from);
      var have := GetBalance(from);
      ghost var r := ledger.Repr();
      Charge(from, 0, have);
      Grown(ledger, r);
    }

    method SetBoth(a: Address, x: int, b: Address, y: int)
      requires ledger.Valid()
      modifies ledger.Repr()
      ensures ledger.Valid() && fresh(ledger.Repr() - old(ledger.Repr()))
      ensures ledger.State() == SetBalance(SetBalance(old(ledger.State()), a, x), b, y)
    {
      hide L.SimpleLedger.State, L.SimpleLedger.Valid, L.SimpleLedger.Repr, SetBalance;
      ledger.SetBalance(a, x);
      ghost var r := ledger.Repr();
      ledger.SetBalance(b, y);
      Grown(ledger, r);
    }

    /** The second half of a transfer, once the funds are known to suffice. */
    method Move(from: Address, fv: int, to: Address, value: int)
      requires ledger.Valid()
      modifies ledger.Repr()
      ensures ledger.Valid() && fresh(ledger.Repr() - old(ledger.Repr()))
      ensures var s := old(ledger.State());
              ledger.State() == SetBalance(SetBalance(Touch(s, to), from, fv - value), to, E.BalanceAt(s, to) + value)
    {
      hide L.SimpleLedger.State, L.SimpleLedger.Valid, L.SimpleLedger.Repr, Touch, SetBalance;
      var tv := GetBalance(to);
      ghost var r := ledger.Repr();
      SetBoth(from, fv - value, to, tv + value);
      Grown(ledger, r);
    }

    method Transfer(from: Address, to: Address, value: int) returns (ok: bool)
      requires ledger.Valid()
      modifies ledger.Repr()
      ensures ledger.Valid() && fresh(ledger.Repr() - old(ledger.Repr()))
      ensures var t := E.Transfer(old(ledger.State()), from, to, value);
              if ok then t == Some(ledger.State()) else t.None? && ledger.State() == Touch(old(ledger.State()), from)
    {
      hide L.SimpleLedger.State, L.SimpleLedger.Valid, L.SimpleLedger.Repr, Touch, SetBalance;
      if value == 0 {
        return true;
      }
      TouchOther(ledger.State(), from, to);
      var fv := GetBalance(from);
      if fv < value {
        return false;
      }
      ghost var r := ledger.Repr();
      Move(from, fv, to, value);
      Grown(ledger, r);
      return true;
    }

    /** The calls that a transaction makes on the ledger. */
    method Execute(ops: seq<FlatLedger.Op>, id: nat)
      requires ledger.Valid() && LedgerOk(ledger.State()) && UndoExact.TxRun(ledger.State(), ops, id)
      modifies ledger.Repr()
      ensures ledger.Valid() && fresh(ledger.Repr() - old(ledger.Repr()))
      ensures ledger.State() == UndoExact.RunTx(old(ledger.State()), ops, id)
    {
      hide L.SimpleLedger.State, L.SimpleLedger.Valid, L.SimpleLedger.Repr,
        FlatLedger.Apply, FlatLedger.Callable, UndoExact.InTx, LedgerOk;
      var i := 0;
      while i < |ops|
        invariant 0 <= i <= |ops|
        invariant ledger.Valid() && fresh(ledger.Repr() - old(ledger.Repr())) && LedgerOk(ledger.State())
        invariant UndoExact.TxRun(ledger.State(), ops[i..], id)
        invariant UndoExact.RunTx(ledger.State(), ops[i..], id) == UndoExact.RunTx(old(ledger.State()), ops, id)
      {
        assert ops[i..][0] == ops[i] && ops[i..][1..] == ops[i + 1..];
        StepOk(ledger.State(), ops[i], id);
        ghost var r := ledger.Repr();
        Call(ops[i]);
        Grown(ledger, r);
        i := i + 1;
      }
      assert ops[i..] == [];
    }

    method Call(op: FlatLedger.Op)
      requires ledger.Valid() && FlatLedger.Callable(ledger.State(), op) && LedgerOk(ledger.State())
      modifies ledger.Repr()
      ensures ledger.Valid() && fresh(ledger.Repr() - old(ledger.Repr()))
      ensures ledger.State() == FlatLedger.Apply(old(ledger.State()), op)
    {
      hide FlatLedger.Apply, FlatLedger.Callable;
      ledger.Do(op);
    }

    method Begin(tx: E.Tx) returns (id: nat)
      requires ledger.Valid()
      modifies ledger.Repr()
      ensures ledger.Valid() && ledger.Repr() == old(ledger.Repr())
      ensures ledger.State() == E.Start(old(ledger.State()), tx) && id == old(ledger.State()).nextRevision
    {
      ledger.PrepareEVM(tx.hash);
      id := ledger.Snapshot();
    }

    method GoBack(id: nat)
      requires ledger.Valid() && LedgerOk(ledger.State()) && FlatLedger.Callable(ledger.State(), FlatLedger.Revert(id))
      modifies ledger.Repr()
      ensures ledger.Valid() && fresh(ledger.Repr() - old(ledger.Repr()))
      ensures ledger.State() == FlatLedger.Apply(old(ledger.State()), FlatLedger.Revert(id))
    {
      Call(FlatLedger.Revert(id));
    }

    /** The fee could not be paid: everything is reverted and the rest is taken. */
    method Fail(tx: E.Tx, id: nat)
      requires ledger.Valid() && admins != [] && LedgerOk(ledger.State())
      requires FlatLedger.Callable(ledger.State(), FlatLedger.Revert(id))
      modifies ledger.Repr()
      ensures ledger.Valid() && fresh(ledger.Repr() - old(ledger.Repr()))
      ensures var r := FlatLedger.Apply(old(ledger.State()), FlatLedger.Revert(id));
              ledger.State() == E.PayLeft(r, tx.from, admins)
    {
      hide L.SimpleLedger.State, L.SimpleLedger.Valid, L.SimpleLedger.Repr,
        FlatLedger.Apply, FlatLedger.Callable, LedgerOk, E.PayLeft;
      GoBack(id);
      ghost var r := ledger.Repr();
      PayLeftAsGasFee(tx.from);
      Grown(ledger, r);
    }

    /** The fee is charged, or the transaction fails. */
    method Settle(tx: E.Tx, fees: nat, id: nat)
      requires ledger.Valid() && admins != [] && LedgerOk(ledger.State())
      requires E.BalanceAt(ledger.State(), tx.from) < fees ==>
               FlatLedger.Callable(Touch(ledger.State(), tx.from), FlatLedger.Revert(id))
      modifies ledger.Repr()
      ensures ledger.Valid() && fresh(ledger.Repr() - old(ledger.Repr()))
      ensures var s := old(ledger.State());
              var paid := E.PayGasFee(s, tx.from, admins, fees);
              ledger.State() ==
              if paid.Some? then paid.value
              else E.PayLeft(FlatLedger.Apply(Touch(s, tx.from), FlatLedger.Revert(id)), tx.from, admins)
    {
      hide L.SimpleLedger.State, L.SimpleLedger.Valid, L.SimpleLedger.Repr,
        FlatLedger.Apply, FlatLedger.Callable, Touch, E.PayLeft, E.PayAdmins;
      TouchKeepsOk(ledger.State(), tx.from);
      var ok := PayGasFee(tx.from, fees);
      if !ok {
        ghost var r := ledger.Repr();
        Fail(tx, id);
        Grown(ledger, r);
      }
    }

    /** The nonce moves on and the transaction's log is dropped. */
    method Close(tx: E.Tx)
      requires ledger.Valid()
      modifies ledger.Repr()
      ensures ledger.Valid() && fresh(ledger.Repr() - old(ledger.Repr()))
      ensures ledger.State() == E.Close(old(ledger.State()), tx)
    {
      hide L.SimpleLedger.State, L.SimpleLedger.Valid, L.SimpleLedger.Repr, SetNonce, Finalise;
      ledger.SetNonce(tx.from, tx.nonce + 1);
      ghost var r := ledger.Repr();
      Drop();
      Grown(ledger, r);
    }

    method Drop()
      requires ledger.Valid()
      modifies ledger.Repr()
      ensures ledger.Valid() && fresh(ledger.Repr() - old(ledger.Repr()))
      ensures ledger.State() == Finalise(old(ledger.State()))
    {
      ledger.ClearChangerAndRefund();
    }

    method SettleAndClose(tx: E.Tx, fees: nat, id: nat)
      requires ledger.Valid() && admins != [] && LedgerOk(ledger.State())
      requires E.BalanceAt(ledger.State(), tx.from) < fees ==>
               FlatLedger.Callable(Touch(ledger.State(), tx.from), FlatLedger.Revert(id))
      modifies ledger.Repr()
      ensures ledger.Valid() && fresh(ledger.Repr() - old(ledger.Repr()))
      ensures var s := old(ledger.State());
              var paid := E.PayGasFee(s, tx.from, admins, fees);
              ledger.State() == E.Close(
                if paid.Some? then paid.value
                else E.PayLeft(FlatLedger.Apply(Touch(s, tx.from), FlatLedger.Revert(id)), tx.from, admins), tx)
    {
      hide L.SimpleLedger.State, L.SimpleLedger.Valid, L.SimpleLedger.Repr,
        FlatLedger.Apply, FlatLedger.Callable, Touch, E.PayLeft, E.PayGasFee, E.Close, E.BalanceAt;
      Settle(tx, fees, id);
      ghost var r := ledger.Repr();
      Close(tx);
      Grown(ledger, r);
    }

    /** `applyTransaction`, where the transaction's own calls are given. */
    method ApplyTransaction(tx: E.Tx, ops: seq<FlatLedger.Op>, fees: nat)
      requires ledger.Valid() && admins != [] && LedgerOk(ledger.State())
      requires E.Body(ledger.State(), tx, ops)
      requires E.ApplyTransaction(ledger.State(), tx, ops, admins, fees).Some?
      modifies ledger.Repr()
      ensures ledger.Valid() && fresh(ledger.Repr() - old(ledger.Repr()))
      ensures Some(ledger.State()) == E.ApplyTransaction(old(ledger.State()), tx, ops, admins, fees)
    {
      hide L.SimpleLedger.State, L.SimpleLedger.Valid, L.SimpleLedger.Repr,
        FlatLedger.Apply, FlatLedger.Callable, Touch, E.PayLeft, E.PayAdmins, E.Close, E.BalanceAt, LedgerOk, E.Start;
      StartOk(ledger.State(), tx);
      RunOk(E.Start(ledger.State(), tx), ops, ledger.State().nextRevision);
      var id := Begin(tx);
      Execute(ops, id);
      ghost var r := ledger.Repr();
      SettleAndClose(tx, fees, id);
      Grown(ledger, r);
    }

    /** The transactions of a block, one after the other.  None of them panics. */
    method ApplyTransactions(calls: seq<E.Call>)
      requires ledger.Valid() && LedgerView.Valid(ledger.State()) && ledger.State().revisions == []
      requires E.BlockRun(ledger.State(), calls) && forall i | 0 <= i < |calls| :: calls[i].admins == admins
      modifies ledger.Repr()
      ensures ledger.Valid() && fresh(ledger.Repr() - old(ledger.Repr()))
      ensures Some(ledger.State()) == E.RunBlock(old(ledger.State()), calls)
      ensures LedgerView.Valid(ledger.State())
    {
      hide L.SimpleLedger.State, L.SimpleLedger.Valid, L.SimpleLedger.Repr, LedgerView.Valid, E.Body, LedgerOk,
        E.ApplyTransaction;
      var i := 0;
      while i < |calls|
        invariant 0 <= i <= |calls|
        invariant ledger.Valid() && fresh(ledger.Repr() - old(ledger.Repr()))
        invariant LedgerView.Valid(ledger.State()) && ledger.State().revisions == []
        invariant E.BlockRun(ledger.State(), calls[i..])
        invariant E.RunBlock(ledger.State(), calls[i..]) == E.RunBlock(old(ledger.State()), calls)
      {
        var c := calls[i];
        assert calls[i..][0] == c && calls[i..][1..] == calls[i + 1..];
        ValidOk(ledger.State());
        E.TransactionIsRun(ledger.State(), c);
        ghost var r := ledger.Repr();
        ApplyTransaction(c.tx, c.ops, c.fees);
        Grown(ledger, r);
        i := i + 1;
      }
      assert calls[i..] == [];
    }
  }

  lemma ValidOk(s: Ledger)
    requires LedgerView.Valid(s)
    ensures LedgerOk(s)
  {
  }

  lemma TouchKeepsOk(s: Ledger, a: Address)
    requires LedgerOk(s)
    ensures LedgerOk(Touch(s, a))
  {
    TouchLonger(s, a);
  }

  lemma StartOk(s: Ledger, tx: E.Tx)
    requires LedgerOk(s)
    ensures LedgerOk(E.Start(s, tx))
  {
  }

  lemma {:induction false} RunOk(s: Ledger, ops: seq<FlatLedger.Op>, id: nat)
    requires LedgerOk(s) && UndoExact.TxRun(s, ops, id)
    ensures LedgerOk(UndoExact.RunTx(s, ops, id))
    decreases |ops|
  {
    hide LedgerOk, FlatLedger.Apply, FlatLedger.Callable, UndoExact.InTx;
    if ops != [] {
      StepOk(s, ops[0], id);
      RunOk(FlatLedger.Apply(s, ops[0]), ops[1..], id);
    }
  }

  /** What every call keeps, and the search for a revision needs. */
  predicate LedgerOk(s: Ledger) {
    RevisionsOk(s.revisions, s.nextRevision, |s.log|)
  }

  lemma StepOk(s: Ledger, op: FlatLedger.Op, id: nat)
    requires LedgerOk(s) && FlatLedger.Callable(s, op) && UndoExact.InTx(op, id)
    ensures LedgerOk(FlatLedger.Apply(s, op))
  {
    hide Bump, LoadAccount, LoadState, LoadCode, BaseState, BaseCode, WithCode, WithState, WithBalance,
      LedgerModel.WithNonce, Revertible, RevertTo;
    if op.Revert? {
      var i := FlatLedger.IndexOf(FlatLedger.Ids(s.revisions), op.id);
      LedgerUndo.RevertToShape(s, s.revisions[i].index);
      LedgerUndo.FewerRevisions(s.revisions, s.nextRevision, |s.log|, i);
    } else if op.TakeSnapshot? {
    } else {
      Longer(s, op, id);
    }
  }

  lemma TouchLonger(s: Ledger, a: Address)
    ensures var t := Touch(s, a);
            t.revisions == s.revisions && t.nextRevision == s.nextRevision && |t.log| >= |s.log| && a in t.accounts
  {
  }

  /** Every other call leaves the revisions alone and at most adds to the log. */
  lemma Longer(s: Ledger, op: FlatLedger.Op, id: nat)
    requires FlatLedger.Callable(s, op) && UndoExact.InTx(op, id) && !op.Revert? && !op.TakeSnapshot?
    ensures var t := FlatLedger.Apply(s, op);
            t.revisions == s.revisions && t.nextRevision == s.nextRevision && |t.log| >= |s.log|
  {
    hide Touch, Bump, LoadState, LoadCode, BaseState, BaseCode, WithCode, WithState, WithBalance,
      LedgerModel.WithNonce, StateOf, CodeOf;
    match op {
      case GetAccount(a) => TouchLonger(s, a);
      case GetState(a, _) => TouchLonger(s, a);
      case GetCode(a) => TouchLonger(s, a);
      case PutBalance(a, _) => TouchLonger(s, a);
      case PutNonce(a, _) => TouchLonger(s, a);
      case PutCode(a, _) => TouchLonger(s, a);
      case PutState(a, _, _) => TouchLonger(s, a);
      case PutStateUnlogged(a, _, _) => TouchLonger(s, a);
      case _ =>
    }
  }
}
