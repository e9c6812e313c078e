/** When `RevertToSnapshot` really restores the state.

    An account logs to the undo log it was loaded with, and the end of a
    transaction gives the ledger a new log.  An account that stays live across
    that point is stale: its later changes are never undone. */
module UndoExact {
  import opened GoBytes
  import opened LedgerModel
  import opened LedgerView
  import opened LedgerSteps
  import opened LedgerUndo
  import opened FlatLedger

  predicate NoStale(s: Ledger) {
    forall a | a in s.accounts :: s.accounts[a].tracked
  }

  /** What happens between taking snapshot `id` and reverting to it. */
  predicate InTx(op: Op, id: nat) {
    !op.EndTx? && !op.BeginTx? && (op.Revert? ==> op.id > id)
  }

  predicate TxRun(s: Ledger, ops: seq<Op>, id: nat)
    decreases |ops|
  {
    ops == [] || (Legal(s, ops[0]) && InTx(ops[0], id) && TxRun(Apply(s, ops[0]), ops[1..], id))
  }

  function RunTx(s: Ledger, ops: seq<Op>, id: nat): Ledger
    requires TxRun(s, ops, id)
    decreases |ops|
  {
    if ops == [] then s else RunTx(Apply(s, ops[0]), ops[1..], id)
  }

  /** Every change has a log entry. */
  predicate Logged(ops: seq<Op>) {
    forall i | 0 <= i < |ops| :: !ops[i].PutStateUnlogged?
  }

  /** Reverting to the snapshot taken in `s`, after `ops`, shows what `s` showed. */
  ghost predicate Undone(s: Ledger, ops: seq<Op>)
    requires TxRun(Snapshot(s), ops, s.nextRevision)
  {
    var t := RunTx(Snapshot(s), ops, s.nextRevision);
    Callable(t, Revert(s.nextRevision)) && View(Apply(t, Revert(s.nextRevision))) == View(s)
  }

  ghost predicate AlwaysUndone(s: Ledger) {
    forall ops: seq<Op> | TxRun(Snapshot(s), ops, s.nextRevision) && Logged(ops) :: Undone(s, ops)
  }

  /** What the copy `o` of snapshot number `i` becomes: the unlogged writes that no entry
      guards reach it. */
  ghost function Kept(s: Ledger, ops: seq<Op>, id: nat, i: nat, o: Obs): Obs
    requires TxRun(s, ops, id)
    decreases |ops|
  {
    if ops == [] then o else Kept(Apply(s, ops[0]), ops[1..], id, i, KeptStep(s, ops[0], i, o))
  }

  ghost function KeptStep(s: Ledger, op: Op, i: nat, o: Obs): Obs {
    if op.PutStateUnlogged? && i < |s.revisions| && Through(s, op.addr, op.key)[i] then FlatObs(o, op) else o
  }

  lemma {:induction false} KeptLogged(s: Ledger, ops: seq<Op>, id: nat, i: nat, o: Obs)
    requires TxRun(s, ops, id) && Logged(ops)
    ensures Kept(s, ops, id, i, o) == o
    decreases |ops|
  {
    hide Callable, Apply, Through, KeyKnown, CodeFits;
    if ops != [] {
      KeptLogged(Apply(s, ops[0]), ops[1..], id, i, o);
    }
  }

  /** Unlogged writes concern no balance, nonce or code. */
  lemma {:induction false} KeptBasics(s: Ledger, ops: seq<Op>, id: nat, i: nat, o: Obs)
    requires TxRun(s, ops, id)
    ensures Kept(s, ops, id, i, o).acct == o.acct && Kept(s, ops, id, i, o).extra == o.extra
    decreases |ops|
  {
    hide Callable, Apply, Through, KeyKnown, CodeFits;
    if ops != [] {
      KeptBasics(Apply(s, ops[0]), ops[1..], id, i, KeptStep(s, ops[0], i, o));
    }
  }

  lemma {:induction false} KeptAppend(s: Ledger, ops: seq<Op>, id: nat, op: Op, i: nat, o: Obs)
    requires TxRun(s, ops, id) && Legal(RunTx(s, ops, id), op) && InTx(op, id)
    ensures TxRun(s, ops + [op], id) && RunTx(s, ops + [op], id) == Apply(RunTx(s, ops, id), op)
    ensures Kept(s, ops + [op], id, i, o) == KeptStep(RunTx(s, ops, id), op, i, Kept(s, ops, id, i, o))
    decreases |ops|
  {
    hide Callable, InTx, Apply, KeptStep, KeyKnown, CodeFits;
    var all := ops + [op];
    if ops == [] {
      assert all[1..] == [];
      assert TxRun(Apply(s, op), all[1..], id);
    } else {
      assert all[0] == ops[0] && all[1..] == ops[1..] + [op];
      KeptAppend(Apply(s, ops[0]), ops[1..], id, op, i, KeptStep(s, ops[0], i, o));
    }
  }

  /** The calls of a transaction are calls of a run. */
  lemma {:induction false} TxIsRun(s: Ledger, ops: seq<Op>, id: nat)
    requires TxRun(s, ops, id)
    ensures LegalRun(s, ops) && Run(s, ops) == RunTx(s, ops, id)
    decreases |ops|
  {
    hide Callable, Apply, KeyKnown, CodeFits;
    if ops != [] {
      TxIsRun(Apply(s, ops[0]), ops[1..], id);
    }
  }

  /** The copy taken under `id` stays in place. */
  ghost predicate Holds(f: Flat, i: nat, id: nat, o: Obs) {
    && i < |f.saved| && f.saved[i].id == id && f.saved[i].obs == o
    && (forall j | 0 <= j <= i :: f.saved[j].id <= id)
  }

  lemma {:induction false} IndexAfter(ids: seq<nat>, i: nat, id: nat)
    requires i <= |ids| && forall j | 0 <= j < i :: ids[j] != id
    ensures i <= IndexOf(ids, id)
  {
    if i > 0 { IndexAfter(ids[1..], i - 1, id); }
  }

  lemma IndexExact(ids: seq<nat>, i: nat)
    requires i < |ids| && forall j | 0 <= j < i :: ids[j] != ids[i]
    ensures IndexOf(ids, ids[i]) == i
    decreases i
  {
    if i > 0 {
      assert ids[0] != ids[i];
      IndexExact(ids[1..], i - 1);
    }
  }

  lemma FlatHolds(s: Ledger, f: Flat, op: Op, i: nat, id: nat, o: Obs)
    requires Holds(f, i, id, o) && InTx(op, id) && |f.saved| == |s.revisions|
    ensures Holds(FlatApply(f, op, AdviceOf(s, op)), i, id, KeptStep(s, op, i, o))
  {
    hide Guarded, Touch, Stale, FlatObs, Blend;
    if op.Revert? {
      IndexAfter(SavedIds(f.saved), i + 1, op.id);
    }
  }

  lemma {:induction false} TxRefines(s: Ledger, f: Flat, ops: seq<Op>, i: nat, id: nat, o: Obs) returns (g: Flat)
    requires Refines(s, f) && TxRun(s, ops, id) && Holds(f, i, id, o)
    ensures Refines(RunTx(s, ops, id), g) && Holds(g, i, id, Kept(s, ops, id, i, o))
    decreases |ops|
  {
    hide Refines, Callable, KeyKnown, CodeFits, Apply, FlatApply, AdviceOf, KeptStep, Holds;
    g := f;
    if ops != [] {
      var op := ops[0];
      StepRefines(s, f, op);
      RefinesSaved(s, f);
      FlatHolds(s, f, op, i, id, o);
      g := TxRefines(Apply(s, op), FlatApply(f, op, AdviceOf(s, op)), ops[1..], i, id, KeptStep(s, op, i, o));
    }
  }

  lemma RefinesSaved(s: Ledger, f: Flat)
    requires Refines(s, f)
    ensures |f.saved| == |s.revisions|
  {
  }

  /** The flat machine in step with a valid ledger. */
  ghost function FlatOf(s: Ledger): Flat {
    Flat(View(s),
         seq(|s.revisions|, i requires 0 <= i < |s.revisions| =>
           Saved(s.revisions[i].id, Unwind(FloorOf(s.base), View(s), s.log, s.revisions[i].index), Stale(s))),
         s.nextRevision)
  }

  lemma FlatOfRefines(s: Ledger)
    requires Valid(s)
    ensures Refines(s, FlatOf(s))
  {
    hide View, FloorOf, Unwind, Stale, Blend, BaseOk, AccountOk, DirtiesOk;
    var f := FlatOf(s);
    forall i | 0 <= i < |f.saved|
      ensures SavedOk(s, f.saved[i], s.revisions[i])
    {
      ViewTotal(s);
      LogSparesStale(s);
      UnwindBlend(FloorOf(s.base), View(s), View(s), Stale(s), s.log, s.revisions[i].index);
      BlendSelf(View(s), Stale(s));
    }
  }

  lemma FreshCopy(s: Ledger, i: nat, id: nat, o: Obs)
    requires Valid(s) && i == |s.revisions| && id == s.nextRevision && o == View(s)
    ensures Holds(FlatApply(FlatOf(s), TakeSnapshot, AdviceOf(s, TakeSnapshot)), i, id, o)
  {
    hide View, FloorOf, Unwind, Ready, BaseOk, AccountOk, DirtiesOk, Stale;
  }

  lemma RevertHeld(t: Ledger, g: Flat, i: nat, id: nat, o: Obs)
    requires Refines(t, g) && Holds(g, i, id, o)
    ensures Callable(t, Revert(id)) && Valid(Apply(t, Revert(id)))
    ensures View(Apply(t, Revert(id))) == Blend(o, View(t), Stale(t))
  {
    hide Valid, Ready, Unwind, View, FloorOf, Revertible, RevertTo, Stale, Blend;
    assert Ids(t.revisions) == SavedIds(g.saved);
    var ids := SavedIds(g.saved);
    forall j | 0 <= j < i
      ensures ids[j] != ids[i]
    {
      RevisionOrder(t, j, i);
    }
    IndexExact(ids, i);
    RevertRefines(t, g, id);
  }

  /** Whatever a transaction does, the accounts that are stale stay the same ones. */
  lemma {:induction false} TxStale(s: Ledger, ops: seq<Op>, id: nat)
    requires Valid(s) && TxRun(s, ops, id)
    ensures Stale(RunTx(s, ops, id)) == Stale(s) && Valid(RunTx(s, ops, id))
    decreases |ops|
  {
    hide Valid, Stale, Callable, KeyKnown, CodeFits, Apply;
    if ops != [] {
      OpStale(s, ops[0]);
      TxStale(Apply(s, ops[0]), ops[1..], id);
    }
  }

  lemma OpStale(s: Ledger, op: Op)
    requires Valid(s) && Legal(s, op) && !op.EndTx?
    ensures Stale(Apply(s, op)) == Stale(s) && Valid(Apply(s, op))
  {
    hide Coherent, Ready, View, Unwind, FloorOf, Stale, LogTracked, Revertible, RevertTo, Touch, Bump;
    FlatOfRefines(s);
    StepRefines(s, FlatOf(s), op);
    if IsRead(op) || IsWrite(op) {
      AccountTracked(s, op);
    } else if op.Revert? {
      RevertToSnapshotStep(s, IndexOf(Ids(s.revisions), op.id));
    } else {
      SameAccounts(s, op);
      StaleAccounts(s, Apply(s, op));
    }
  }

  lemma SameAccounts(s: Ledger, op: Op)
    requires Callable(s, op) && !IsRead(op) && !IsWrite(op) && !op.Revert? && !op.EndTx?
    ensures Apply(s, op).accounts == s.accounts
  {
  }

  lemma StaleAccounts(s: Ledger, t: Ledger)
    requires t.accounts == s.accounts
    ensures Stale(t) == Stale(s)
  {
  }

  /** Reverting to the snapshot shows the state it was taken in, but for the stale
      accounts, which show what they show now, and for the unlogged writes kept. */
  lemma RevertShows(s: Ledger, ops: seq<Op>)
    requires Valid(s) && TxRun(Snapshot(s), ops, s.nextRevision)
    ensures var id := s.nextRevision;
            var t := RunTx(Snapshot(s), ops, id);
            && Callable(t, Revert(id)) && Valid(Apply(t, Revert(id)))
            && View(Apply(t, Revert(id))) ==
               Blend(Kept(Snapshot(s), ops, id, |s.revisions|, View(s)), View(t), Stale(s))
  {
    hide Refines, View, FloorOf, Unwind, Valid, Callable, Apply, Blend, Stale, TxRun;
    var id, i, o := s.nextRevision, |s.revisions|, View(s);
    FlatOfRefines(s);
    var f := FlatOf(s);
    SnapshotRefines(s, f);
    var f' := FlatApply(f, TakeSnapshot, AdviceOf(s, TakeSnapshot));
    FreshCopy(s, i, id, o);
    var g := TxRefines(Snapshot(s), f', ops, i, id, o);
    var t := RunTx(Snapshot(s), ops, id);
    var k := Kept(Snapshot(s), ops, id, i, o);
    RevertHeld(t, g, i, id, k);
    RefinedValid(Snapshot(s), f');
    TxStale(Snapshot(s), ops, id);
    StaleAccounts(s, Snapshot(s));
  }

  lemma RefinedValid(s: Ledger, f: Flat)
    requires Refines(s, f)
    ensures Valid(s)
  {
  }

  lemma UndoneWhenTracked(s: Ledger, ops: seq<Op>)
    requires Valid(s) && NoStale(s) && TxRun(Snapshot(s), ops, s.nextRevision) && Logged(ops)
    ensures Undone(s, ops)
  {
    hide View, Valid, Callable, Apply, Blend, TxRun, Logged;
    RevertShows(s, ops);
    KeptLogged(Snapshot(s), ops, s.nextRevision, |s.revisions|, View(s));
    assert Stale(s) == {};
    BlendNone(View(s), View(RunTx(Snapshot(s), ops, s.nextRevision)));
  }

  lemma RevisionOrder(t: Ledger, j: nat, i: nat)
    requires Valid(t) && j < i < |t.revisions|
    ensures t.revisions[j].id < t.revisions[i].id
  {
  }

  lemma NewestRevision(s: Ledger, t: Ledger)
    requires RevisionsOk(s.revisions, s.nextRevision, |s.log|) && t.revisions == Snapshot(s).revisions
    ensures IndexOf(Ids(t.revisions), s.nextRevision) == |s.revisions|
  {
    IndexExact(Ids(t.revisions), |s.revisions|);
  }

  lemma BalanceSeen(s: Ledger, a: Address)
    requires a in s.accounts
    ensures a in View(s).acct && View(s).acct[a].balance == BalanceOf(Current(s.accounts[a]))
  {
  }

  lemma SnapshotKeeps(s: Ledger)
    requires Valid(s)
    ensures Coherent(Snapshot(s)) && View(Snapshot(s)) == View(s)
  {
    hide View;
    FlatOfRefines(s);
    SnapshotRefines(s, FlatOf(s));
    SameSnapshot(s);
  }

  lemma SameSnapshot(s: Ledger)
    ensures View(Snapshot(s)) == View(s)
  {
  }

  /** A stale account keeps the change that the revert should have undone. */
  lemma StaleNotUndone(s: Ledger, a: Address)
    requires Valid(s) && a in s.accounts && !s.accounts[a].tracked
    ensures var ops := [PutBalance(a, BalanceOf(Current(s.accounts[a])) + 1)];
            TxRun(Snapshot(s), ops, s.nextRevision) && Logged(ops) && !Undone(s, ops)
  {
    hide Valid, Coherent, View, SetBalance, Keeps, Kept, Revertible, RevertTo;
    var b := BalanceOf(Current(s.accounts[a]));
    var ops := [PutBalance(a, b + 1)];
    var t := Apply(Snapshot(s), ops[0]);
    assert ops[1..] == [];
    assert TxRun(t, ops[1..], s.nextRevision) && RunTx(t, ops[1..], s.nextRevision) == t;
    RevertShows(s, ops);
    SnapshotKeeps(s);
    SetBalanceStep(Snapshot(s), a, b + 1);
    BalanceSeen(s, a);
    KeptLogged(Snapshot(s), ops, s.nextRevision, |s.revisions|, View(s));
  }

  /** `RevertToSnapshot` undoes every transaction started in `s` if and only if no
      live account of `s` is stale. */
  lemma UndoIffNoStale(s: Ledger)
    requires Valid(s)
    ensures NoStale(s) <==> AlwaysUndone(s)
  {
    if NoStale(s) {
      forall ops: seq<Op> | TxRun(Snapshot(s), ops, s.nextRevision) && Logged(ops)
        ensures Undone(s, ops)
      {
        UndoneWhenTracked(s, ops);
      }
    } else {
      var a :| a in s.accounts && !s.accounts[a].tracked;
      StaleNotUndone(s, a);
    }
  }

  /** The end of a transaction leaves no stale account exactly when nothing is
      live, or nothing was logged and nothing was stale before. */
  lemma EndTxNoStale(s: Ledger)
    ensures NoStale(Finalise(s)) <==> s.accounts == map[] || (s.log == [] && NoStale(s))
  {
    if s.log != [] && s.accounts != map[] {
      var a :| a in s.accounts;
      assert a in Finalise(s).accounts && !Finalise(s).accounts[a].tracked;
    }
  }

  /** So after any transaction that logged a change and left an account live, the
      next transaction of the block can no longer be undone. */
  lemma SecondTxNotUndone(s: Ledger)
    requires Valid(s) && s.log != [] && s.accounts != map[]
    ensures !AlwaysUndone(Finalise(s))
  {
    EndTxNoStale(s);
    FinaliseValid(s);
    UndoIffNoStale(Finalise(s));
  }

  lemma FinaliseValid(s: Ledger)
    requires Valid(s)
    ensures Valid(Finalise(s))
  {
    hide Coherent, LogTracked;
    FinaliseCoherent(s);
    FinaliseTracked(s);
  }

  /** `AddState` after a snapshot is undone exactly when it changed nothing, or when
      the account itself came into being with it. */
  lemma UnloggedUndoneIff(s: Ledger, a: Address, k: Key, v: Val)
    requires Valid(s)
    ensures var t := AddState(Snapshot(s), a, k, v);
            && Callable(t, Revert(s.nextRevision))
            && (View(Apply(t, Revert(s.nextRevision))) == View(s) <==>
                View(s).state[(a, k)] == v || (a !in s.accounts && BaseInner(s.base, a).None?))
  {
    hide Ready, DirtiesOk, ViewOf, BaseState, BaseCode, BaseOk, AccountOk, LogsOk, Bump, Unbump;
    var t := AddState(Snapshot(s), a, k, v);
    NewestRevision(s, t);
    LoadedAccountOk(s.base, a);
    if a !in s.accounts && BaseInner(s.base, a).None? {
      assert t.log == s.log + [CreateObject(a)];
      CreatedUndone(s, t, a);
    } else {
      assert t.log == s.log;
      KeptUnlogged(s, a, k, v);
    }
  }

  lemma CreatedUndone(s: Ledger, t: Ledger, a: Address)
    requires a !in s.accounts && a in t.accounts && t.accounts - {a} == s.accounts && BaseInner(s.base, a).None?
    requires t.base == s.base && t.extra == s.extra && t.log == s.log + [CreateObject(a)]
    ensures Revertible(t, |s.log|) && View(RevertTo(t, |s.log|)) == View(s)
  {
    DropBase(s.base, a);
    assert t.log[..|t.log| - 1] == s.log;
    assert Revertible(RevertLast(t), |s.log|);
  }

  lemma StateTotal(s: Ledger, a: Address, k: Key)
    ensures (a, k) in View(s).state
  {
  }

  lemma KeptUnlogged(s: Ledger, a: Address, k: Key, v: Val)
    requires Coherent(s)
    ensures View(AddState(Snapshot(s), a, k, v)) == View(s) <==> View(s).state[(a, k)] == v
  {
    hide Coherent, Keeps, LoadAccount, ViewOf;
    TouchStep(s, a);
    var u := Touch(s, a);
    StateWriteView(u.base, u.accounts, a, k, v, u.extra);
    assert Touch(Snapshot(s), a).accounts == u.accounts;
    var o := View(s);
    StateTotal(s, a, k);
    assert o.state[(a, k) := v] == o.state <==> o.state[(a, k)] == v;
  }

  /** Setting code takes effect exactly when the new code is not nil or no code is stored. */
  lemma SetCodeVisibleIff(s: Ledger, a: Address, c: Val)
    requires Coherent(s)
    ensures CodeAt(s.base, SetCode(s, a, c).accounts, a) == c <==> c.Some? || BaseCode(s.base, a).None?
  {
    ReadCodeStep(s, a);
    TouchStep(s, a);
    var u := Touch(s, a);
    AccountCode(u.base, a, u.accounts[a]);
    assert u.accounts[a].originCode == BaseCode(s.base, a);
  }
}
