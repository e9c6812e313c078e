/** The branch of `applyTransaction` for cross-chain transactions that run in parallel
    (handle.go): the snapshot and the revert go through a change instance, the payments do
    not, and no log is dropped at the end. */
module ParallelExecutor {
  import opened GoBytes
  import opened LedgerModel
  import opened LedgerView
  import opened LedgerSteps
  import E = Executor
  import P = ParallelUndo

  // ---- payments, whatever the other transactions left in the accounts ----------------------

  lemma BalanceSeen(s: Ledger, a: Address, v: int)
    requires BaseOk(s.base)
    ensures SetBalance(s, a, v).base == s.base && E.Open(View(s).acct)
    ensures View(SetBalance(s, a, v)) == View(s).(acct := E.Put(View(s).acct, a, v))
  {
    hide View, SetBalance, BaseOk;
    E.ViewOpen(s);
    SetBalanceSeen(s, a, v);
  }

  lemma {:induction false} PayEachSeen(s: Ledger, admins: seq<Address>, fee: int)
    requires BaseOk(s.base)
    ensures E.PayEach(s, admins, fee).base == s.base && E.Open(View(s).acct)
    ensures View(E.PayEach(s, admins, fee)) == View(s).(acct := E.FlatPay(View(s).acct, admins, fee))
    decreases |admins|
  {
    hide BaseOk, View, SetBalance, E.BalanceAt;
    E.ViewOpen(s);
    if admins != [] {
      BalanceSeen(s, admins[0], E.BalanceAt(s, admins[0]) + fee);
      PayEachSeen(E.Credit(s, admins[0], fee), admins[1..], fee);
    }
  }

  /** What charging the sender and moving its nonce on leaves to be seen. */
  ghost function FlatSettled(o: Obs, tx: E.Tx, admins: seq<Address>, left: int, fees: int): Obs
    requires E.Open(o.acct) && admins != []
  {
    o.(acct := E.WithNonce(E.FlatFee(o.acct, tx.from, admins, left, fees), tx.from, tx.nonce + 1))
  }

  lemma SettledSeen(s: Ledger, tx: E.Tx, admins: seq<Address>, left: int, fees: int)
    requires BaseOk(s.base) && admins != []
    ensures E.Open(View(s).acct)
    ensures var t := SetNonce(E.PayAdmins(SetBalance(s, tx.from, left), admins, fees), tx.from, tx.nonce + 1);
            View(t) == FlatSettled(View(s), tx, admins, left, fees)
  {
    hide BaseOk, View, SetBalance, SetNonce, E.PayEach;
    BalanceSeen(s, tx.from, left);
    PayEachSeen(SetBalance(s, tx.from, left), admins, fees / |admins|);
    var paid := E.PayAdmins(SetBalance(s, tx.from, left), admins, fees);
    SetNonceSeen(paid, tx.from, tx.nonce + 1);
  }

  // ---- the transaction -------------------------------------------------------------------------

  /** What follows the transaction's own calls: the fee, or the revert through the change
      instance and whatever the sender has left; the nonce; the release of the instance. */
  function Settle(q: P.Par, t: P.Tx, id: nat, tx: E.Tx, admins: seq<Address>, fees: nat): P.Par
    requires admins != [] && P.HasRevision(P.Of(q.instances, t), id)
  {
    var paid := E.PayGasFee(q.ledger, tx.from, admins, fees);
    var r := if paid.Some? then q.(ledger := paid.value) else
      var u := P.ParApply(P.ParApply(q, P.Look(t, tx.from)), P.Back(t, id));
      u.(ledger := E.PayLeft(u.ledger, tx.from, admins));
    P.ParApply(r.(ledger := SetNonce(r.ledger, tx.from, tx.nonce + 1)), P.Release(t))
  }

  lemma ReleaseSeen(r: P.Par, t: P.Tx)
    ensures View(P.ParApply(r, P.Release(t)).ledger) ==
            View(r.ledger).(extra := P.ReleasedExtra(P.Of(r.instances, t), View(r.ledger).extra))
  {
    hide View;
    P.ReleaseSees(r.ledger, P.ReleasedExtra(P.Of(r.instances, t), r.ledger.extra));
  }

  /** A parallel transaction that can pay leaves its writes; the fee is taken from the sender
      and shared out, account by account, and the nonce moves on. */
  lemma PaidSeen(q: P.Par, t: P.Tx, id: nat, tx: E.Tx, admins: seq<Address>, fees: nat, a: Address)
    requires BaseOk(q.ledger.base) && admins != [] && P.HasRevision(P.Of(q.instances, t), id)
    requires E.BalanceAt(q.ledger, tx.from) >= fees
    ensures var o, r := View(q.ledger), Settle(q, t, id, tx, admins, fees);
            && a in o.acct && a in View(r.ledger).acct
            && View(r.ledger).acct[a] == E.Settled(o.acct[a], a, tx, admins, fees)
            && View(r.ledger).state == o.state
            && View(r.ledger).extra == o.extra.(refund := if P.Of(q.instances, t).log == [] then o.extra.refund else 0)
            && P.SameBut(q.instances, r.instances, t)
  {
    hide BaseOk, View, SetBalance, SetNonce, E.PayAdmins, E.FlatFee, P.HasRevision, E.WithNonce, E.Settled;
    var have := E.BalanceAt(q.ledger, tx.from);
    E.ViewOpen(q.ledger);
    SettledSeen(q.ledger, tx, admins, have - fees, fees);
    var paid := E.PayGasFee(q.ledger, tx.from, admins, fees).value;
    ReleaseSeen(q.(ledger := SetNonce(paid, tx.from, tx.nonce + 1)), t);
    E.SettledShare(View(q.ledger).acct, tx, admins, fees, a);
    E.ViewOpen(Settle(q, t, id, tx, admins, fees).ledger);
  }

  lemma UnpaidSeen(q: P.Par, t: P.Tx, id: nat, tx: E.Tx, admins: seq<Address>, fees: nat)
    requires admins != [] && P.HasRevision(P.Of(q.instances, t), id)
    requires E.BalanceAt(q.ledger, tx.from) < fees
    requires BaseOk(P.ParApply(P.ParApply(q, P.Look(t, tx.from)), P.Back(t, id)).ledger.base)
    ensures var u := P.ParApply(P.ParApply(q, P.Look(t, tx.from)), P.Back(t, id));
            var o := View(u.ledger);
            var r := Settle(q, t, id, tx, admins, fees);
            && E.Open(o.acct)
            && View(r.ledger) == FlatSettled(o, tx, admins, 0, o.acct[tx.from].balance)
                 .(extra := P.ReleasedExtra(P.Of(u.instances, t), o.extra))
            && P.SameBut(u.instances, r.instances, t)
  {
    hide BaseOk, View, SetBalance, SetNonce, E.PayAdmins, P.HasRevision, P.Reverted, P.UndoEntries, Touch;
    var u := P.ParApply(P.ParApply(q, P.Look(t, tx.from)), P.Back(t, id));
    E.ViewOpen(u.ledger);
    SettledSeen(u.ledger, tx, admins, 0, E.BalanceAt(u.ledger, tx.from));
    var left := SetNonce(E.PayLeft(u.ledger, tx.from, admins), tx.from, tx.nonce + 1);
    ReleaseSeen(u.(ledger := left), t);
  }

  /** However its calls interleave with those of transactions that write other cells, a
      parallel transaction that cannot pay its fee leaves what the same interleaving leaves
      without its calls, with the sender's balance there shared out and the nonce moved on. */
  lemma UnpaidRemoved(
      p: P.Par, ops: seq<P.ParOp>, owner: P.Owner, t: P.Tx, tx: E.Tx, admins: seq<Address>, fees: nat)
    requires P.ParReady(p, owner, t) && P.OpsOk(ops, owner, t, P.Of(p.instances, t).next)
    requires P.LegalRun(P.ParApply(p, P.Snap(t)), ops) && admins != []
    requires E.BalanceAt(P.ParRun(P.ParApply(p, P.Snap(t)), ops).ledger, tx.from) < fees
    ensures var id := P.Of(p.instances, t).next;
            var q := P.ParRun(P.ParApply(p, P.Snap(t)), ops);
            && P.HasRevision(P.Of(q.instances, t), id) && P.LegalRun(p, P.Without(ops, t))
            && var r, w := Settle(q, t, id, tx, admins, fees), P.ParRun(p, P.Without(ops, t));
               var o := View(w.ledger);
               && E.Open(o.acct) && P.SameBut(r.instances, w.instances, t)
               && View(r.ledger).acct == FlatSettled(o, tx, admins, 0, o.acct[tx.from].balance).acct
               && View(r.ledger).state == o.state
               && View(r.ledger).extra.(refund := 0) == o.extra.(refund := 0)
  {
    hide P.ParReady, P.LegalRun, P.ParRun, P.OpsOk, View, BaseOk, P.Without, Settle, E.BalanceAt, E.WithNonce,
      E.FlatFee, P.HasRevision, Touch, P.UndoEntries;
    var id, look := P.Of(p.instances, t).next, P.Look(t, tx.from);
    var start := P.ParApply(p, P.Snap(t));
    P.RunAppend(start, ops, look);
    P.WithoutAppend(ops, look);
    LookOk(ops, owner, t, id, tx.from);
    P.RevertRemoves(p, ops + [look], owner, t);
    UnpaidSeen(P.ParRun(start, ops), t, id, tx, admins, fees);
    OnlyRefund(Settle(P.ParRun(start, ops), t, id, tx, admins, fees).ledger);
  }

  lemma OnlyRefund(s: Ledger)
    ensures View(s).extra == s.extra
  {
  }

  lemma LookOk(ops: seq<P.ParOp>, owner: P.Owner, t: P.Tx, id: nat, a: Address)
    requires P.OpsOk(ops, owner, t, id)
    ensures P.OpsOk(ops + [P.Look(t, a)], owner, t, id)
  {
  }
}
