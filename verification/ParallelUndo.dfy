/** Transactions that run in parallel, each logging its storage writes to a change
    instance of its own (state_accessor.go, account.go), and the undo of one of them.
    Balances and nonces are written without an instance. */
module ParallelUndo {
  import opened GoBytes
  import opened LedgerModel
  import opened LedgerView
  import opened LedgerSteps
  import LedgerUndo
  import FlatLedger
  import UndoExact

  type Tx = nat

  datatype Instance = Instance(log: seq<Change>, dirties: map<Address, nat>, revisions: seq<Revision>, next: nat)

  const NEW_INSTANCE := Instance([], map[], [], 0)

  type Instances = map<Tx, Instance>

  function Of(instances: Instances, t: Tx): Instance {
    if t in instances then instances[t] else NEW_INSTANCE
  }

  datatype Par = Par(ledger: Ledger, instances: Instances)

  /** One call on the ledger by one of the running transactions. */
  datatype ParOp =
    | Look(tx: Tx, account: Address)
    | Read(tx: Tx, account: Address, key: Key)
    | Write(tx: Tx, account: Address, key: Key, value: Val)
    | Snap(tx: Tx)
    | Back(tx: Tx, id: nat)
    | Balance(tx: Tx, account: Address, balance: int)
    | Nonce(tx: Tx, account: Address, nonce: nat)
    | Release(tx: Tx)

  function Noted(i: Instance, e: Change): Instance {
    i.(log := i.log + [e], dirties := Bump(i.dirties, e))
  }

  function Snapped(i: Instance): Instance {
    i.(revisions := i.revisions + [Revision(i.next, |i.log|)], next := i.next + 1)
  }

  /** `ReleaseChangeInstance`. */
  function Released(i: Instance): Instance {
    Instance([], if i.log == [] then i.dirties else map[], [], 0)
  }

  function ReleasedExtra(i: Instance, x: Extra): Extra {
    if i.log == [] then x else x.(refund := 0)
  }

  function UnbumpTo(log: seq<Change>, d: map<Address, nat>, n: nat): map<Address, nat>
    decreases |log|
  {
    if |log| <= n then d else UnbumpTo(log[..|log| - 1], Unbump(d, log[|log| - 1]), n)
  }

  function RevIndex(i: Instance, id: nat): nat {
    FlatLedger.IndexOf(FlatLedger.Ids(i.revisions), id)
  }

  predicate HasRevision(i: Instance, id: nat) {
    RevIndex(i, id) < |i.revisions| && i.revisions[RevIndex(i, id)].index <= |i.log|
  }

  function Reverted(i: Instance, id: nat): Instance
    requires HasRevision(i, id)
  {
    var n := i.revisions[RevIndex(i, id)].index;
    i.(log := i.log[..n], dirties := UnbumpTo(i.log, i.dirties, n), revisions := i.revisions[..RevIndex(i, id)])
  }

  /** `SetState` with a change instance: the account's own log is left alone. */
  function Store(s: Ledger, a: Address, k: Key, v: Val): Ledger {
    var t := ReadState(s, a, k);
    WithAccount(t, a, WithState(t.accounts[a], k, v))
  }

  function Previous(s: Ledger, a: Address, k: Key): Val {
    var t := ReadState(s, a, k);
    StateOf(t.accounts[a], BaseState(t.base, a, k), k)
  }

  function UndoEntry(s: Ledger, e: Change): Ledger {
    if e.StorageChange? then AddState(s, e.account, e.key, e.prevValue) else s
  }

  function UndoEntries(s: Ledger, log: seq<Change>, n: nat): Ledger
    decreases |log|
  {
    if |log| <= n then s else UndoEntries(UndoEntry(s, log[|log| - 1]), log[..|log| - 1], n)
  }

  predicate ParLegal(instances: Instances, op: ParOp) {
    op.Back? ==> HasRevision(Of(instances, op.tx), op.id)
  }

  function ParApply(p: Par, op: ParOp): Par
    requires ParLegal(p.instances, op)
  {
    var i := Of(p.instances, op.tx);
    match op
    case Look(_, a) => p.(ledger := Touch(p.ledger, a))
    case Read(_, a, k) => p.(ledger := ReadState(p.ledger, a, k))
    case Write(t, a, k, v) =>
      var prev := Previous(p.ledger, a, k);
      Par(Store(p.ledger, a, k, v), p.instances[t := Noted(i, StorageChange(a, k, prev))])
    case Snap(t) => p.(instances := p.instances[t := Snapped(i)])
    case Back(t, id) =>
      var n := i.revisions[RevIndex(i, id)].index;
      Par(UndoEntries(p.ledger, i.log, n), p.instances[t := Reverted(i, id)])
    case Balance(_, a, v) => p.(ledger := SetBalance(p.ledger, a, v))
    case Nonce(_, a, n) => p.(ledger := SetNonce(p.ledger, a, n))
    case Release(t) =>
      Par(p.ledger.(extra := ReleasedExtra(i, p.ledger.extra)), p.instances[t := Released(i)])
  }

  // ---- the same calls on a flat state ----------------------------------------------------------

  type Cells = imap<(Address, Key), Val>

  datatype Flat = Flat(cells: Cells, acct: imap<Address, Basics>, extra: Extra, instances: Instances)

  ghost function FlatUndo(c: Cells, log: seq<Change>, n: nat): Cells
    decreases |log|
  {
    if |log| <= n then c
    else
      var e := log[|log| - 1];
      FlatUndo(if e.StorageChange? then c[(e.account, e.key) := e.prevValue] else c, log[..|log| - 1], n)
  }

  ghost predicate Full(c: Cells) {
    forall p: (Address, Key) :: p in c
  }

  ghost function FlatBalance(acct: imap<Address, Basics>, a: Address, v: int): imap<Address, Basics> {
    if a in acct then acct[a := acct[a].(balance := v)] else acct
  }

  ghost function FlatNonce(acct: imap<Address, Basics>, a: Address, n: nat): imap<Address, Basics> {
    if a in acct then acct[a := acct[a].(nonce := n)] else acct
  }

  ghost function FlatApply(f: Flat, op: ParOp): Flat
    requires ParLegal(f.instances, op) && Full(f.cells)
  {
    var i := Of(f.instances, op.tx);
    match op
    case Write(t, a, k, v) =>
      f.(cells := f.cells[(a, k) := v],
         instances := f.instances[t := Noted(i, StorageChange(a, k, f.cells[(a, k)]))])
    case Snap(t) => f.(instances := f.instances[t := Snapped(i)])
    case Back(t, id) =>
      var n := i.revisions[RevIndex(i, id)].index;
      f.(cells := FlatUndo(f.cells, i.log, n), instances := f.instances[t := Reverted(i, id)])
    case Look(_, _) => f
    case Read(_, _, _) => f
    case Balance(_, a, v) => f.(acct := FlatBalance(f.acct, a, v))
    case Nonce(_, a, n) => f.(acct := FlatNonce(f.acct, a, n))
    case Release(t) => f.(extra := ReleasedExtra(i, f.extra), instances := f.instances[t := Released(i)])
  }

  ghost predicate Refines(p: Par, f: Flat) {
    BaseOk(p.ledger.base) && View(p.ledger) == Obs(f.acct, f.cells, f.extra) && p.instances == f.instances
  }

  ghost function FlatOf(p: Par): Flat {
    var v := View(p.ledger);
    Flat(v.state, v.acct, v.extra, p.instances)
  }

  lemma AddStateSees(s: Ledger, a: Address, k: Key, v: Val)
    requires BaseOk(s.base)
    ensures AddState(s, a, k, v).base == s.base
    ensures View(AddState(s, a, k, v)) == View(s).(state := View(s).state[(a, k) := v])
  {
    hide View, ViewOf, BaseOk, Touch;
    TouchSeen(s, a);
    var t := Touch(s, a);
    StateWriteSeen(t, a, k, v);
  }

  lemma LoadSees(t: Ledger, a: Address, k: Key)
    requires a in t.accounts
    ensures View(WithAccount(t, a, LoadState(t.accounts[a], BaseState(t.base, a, k), k))) == View(t)
  {
    hide BaseState, BaseInner, BaseCode;
    var acc := LoadState(t.accounts[a], BaseState(t.base, a, k), k);
    SameView(t.base, t.accounts, a, acc, t.extra);
  }

  lemma ReadSees(s: Ledger, a: Address, k: Key)
    requires BaseOk(s.base)
    ensures var t := ReadState(s, a, k); a in t.accounts && t.base == s.base && View(t) == View(s)
    ensures Previous(s, a, k) == View(s).state[(a, k)]
  {
    TouchSeen(s, a);
    LoadSees(Touch(s, a), a, k);
    var t := ReadState(s, a, k);
    assert View(t).state[(a, k)] == StateAt(t.base, t.accounts, a, k);
  }

  lemma {:induction false} UndoSees(s: Ledger, log: seq<Change>, n: nat)
    requires BaseOk(s.base)
    ensures UndoEntries(s, log, n).base == s.base
    ensures View(UndoEntries(s, log, n)) == View(s).(state := FlatUndo(View(s).state, log, n))
    decreases |log|
  {
    hide View, BaseOk, AddState;
    if |log| > n {
      var e := log[|log| - 1];
      if e.StorageChange? {
        AddStateSees(s, e.account, e.key, e.prevValue);
      }
      UndoSees(UndoEntry(s, e), log[..|log| - 1], n);
    }
  }

  lemma ViewFull(s: Ledger)
    ensures Full(View(s).state)
  {
  }

  lemma ReleaseSees(s: Ledger, x: Extra)
    ensures View(s.(extra := x)) == View(s).(extra := x) && View(s).extra == s.extra
  {
    LedgerUndo.ExtraView(s.base, s.accounts, s.extra, x);
  }

  lemma StepRefines(p: Par, f: Flat, op: ParOp)
    requires Refines(p, f) && ParLegal(p.instances, op) && Full(f.cells)
    ensures Refines(ParApply(p, op), FlatApply(f, op))
  {
    hide View, BaseOk, ReadState, UndoEntries, FlatUndo, Previous, SetBalance, SetNonce, Reverted, Noted, Released,
      Touch;
    match op
    case Look(_, a) => TouchSeen(p.ledger, a);
    case Read(_, a, k) => ReadSees(p.ledger, a, k);
    case Write(t, a, k, v) =>
      ReadSees(p.ledger, a, k);
      StateWriteSeen(ReadState(p.ledger, a, k), a, k, v);
    case Snap(t) =>
    case Back(t, id) =>
      var i := Of(p.instances, t);
      UndoSees(p.ledger, i.log, i.revisions[RevIndex(i, id)].index);
    case Balance(_, a, v) =>
      SetBalanceSeen(p.ledger, a, v);
      EveryAddress(p.ledger, a);
    case Nonce(_, a, n) =>
      SetNonceSeen(p.ledger, a, n);
      EveryAddress(p.ledger, a);
    case Release(t) => ReleaseSees(p.ledger, ReleasedExtra(Of(p.instances, t), p.ledger.extra));
  }

  lemma EveryAddress(s: Ledger, a: Address)
    ensures a in View(s).acct
  {
  }

  // ---- ownership ----------------------------------------------------------------------------------

  /** Which transaction may write a cell; no two transactions share one. */
  type Owner = (Address, Key) -> Tx

  predicate OwnedBy(log: seq<Change>, owner: Owner, t: Tx) {
    forall i | 0 <= i < |log| :: log[i].StorageChange? && owner(log[i].account, log[i].key) == t
  }

  predicate Writes(op: ParOp, owner: Owner) {
    op.Write? ==> owner(op.account, op.key) == op.tx
  }

  ghost predicate AllOwned(instances: Instances, owner: Owner) {
    forall t: Tx :: OwnedBy(Of(instances, t).log, owner, t)
  }

  lemma {:induction false} FlatUndoFull(c: Cells, log: seq<Change>, n: nat)
    requires Full(c)
    ensures Full(FlatUndo(c, log, n))
    decreases |log|
  {
    if |log| > n {
      var e := log[|log| - 1];
      FlatUndoFull(if e.StorageChange? then c[(e.account, e.key) := e.prevValue] else c, log[..|log| - 1], n);
    }
  }

  /** Undoing a transaction's entries leaves the cells of the others alone. */
  lemma {:induction false} FlatUndoFrame(c: Cells, log: seq<Change>, n: nat, owner: Owner, t: Tx, p: (Address, Key))
    requires Full(c) && OwnedBy(log, owner, t) && owner(p.0, p.1) != t
    ensures p in FlatUndo(c, log, n) && FlatUndo(c, log, n)[p] == c[p]
    decreases |log|
  {
    if |log| > n {
      var e := log[|log| - 1];
      FlatUndoFrame(c[(e.account, e.key) := e.prevValue], log[..|log| - 1], n, owner, t, p);
    }
  }

  /** Undoing one transaction commutes with a write by another. */
  lemma {:induction false} FlatUndoCommutes(
      c: Cells, log: seq<Change>, n: nat, owner: Owner, t: Tx, p: (Address, Key), v: Val)
    requires OwnedBy(log, owner, t) && owner(p.0, p.1) != t
    ensures FlatUndo(c[p := v], log, n) == FlatUndo(c, log, n)[p := v]
    decreases |log|
  {
    if |log| > n {
      var e := log[|log| - 1];
      var q := (e.account, e.key);
      assert c[p := v][q := e.prevValue] == c[q := e.prevValue][p := v];
      FlatUndoCommutes(c[q := e.prevValue], log[..|log| - 1], n, owner, t, p, v);
    }
  }

  /** Undoing one transaction commutes with undoing another. */
  lemma {:induction false} FlatUndoBoth(
      c: Cells, log: seq<Change>, n: nat, t: Tx, other: seq<Change>, m: nat, u: Tx, owner: Owner)
    requires OwnedBy(log, owner, t) && OwnedBy(other, owner, u) && t != u
    ensures FlatUndo(FlatUndo(c, other, m), log, n) == FlatUndo(FlatUndo(c, log, n), other, m)
    decreases |other|
  {
    if |other| > m {
      var e := other[|other| - 1];
      var q := (e.account, e.key);
      FlatUndoBoth(c[q := e.prevValue], log, n, t, other[..|other| - 1], m, u, owner);
      FlatUndoCommutes(c, log, n, owner, t, q, e.prevValue);
    }
  }

  /** Undoing down to m and then to n is undoing down to n. */
  lemma {:induction false} FlatUndoSplit(c: Cells, log: seq<Change>, m: nat, n: nat)
    requires n <= m <= |log|
    ensures FlatUndo(FlatUndo(c, log, m), log[..m], n) == FlatUndo(c, log, n)
    decreases |log|
  {
    if |log| > m {
      var e := log[|log| - 1];
      var rest := log[..|log| - 1];
      assert rest[..m] == log[..m];
      FlatUndoSplit(if e.StorageChange? then c[(e.account, e.key) := e.prevValue] else c, rest, m, n);
    } else {
      assert log[..m] == log;
    }
  }

  lemma FlatUndoNoted(c: Cells, log: seq<Change>, p: (Address, Key), v: Val, n: nat)
    requires Full(c) && n <= |log|
    ensures FlatUndo(c[p := v], log + [StorageChange(p.0, p.1, c[p])], n) == FlatUndo(c, log, n)
  {
    var e := StorageChange(p.0, p.1, c[p]);
    var noted := log + [e];
    assert noted[..|noted| - 1] == log && noted[|noted| - 1] == e;
    assert c[p := v][(e.account, e.key) := e.prevValue] == c;
  }

  lemma {:induction false} UnbumpToCounts(log: seq<Change>, d: map<Address, nat>, n: nat)
    requires DirtiesOk(log, d) && n <= |log|
    ensures DirtiesOk(log[..n], UnbumpTo(log, d, n))
    decreases |log|
  {
    if |log| > n {
      var rest := log[..|log| - 1];
      UnbumpCounts(log, d);
      UnbumpToCounts(rest, Unbump(d, log[|log| - 1]), n);
      assert rest[..n] == log[..n];
    } else {
      assert log[..n] == log;
    }
  }

  /** The instance counts its live entries per address. */
  ghost predicate Counted(i: Instance) {
    DirtiesOk(i.log, i.dirties)
  }

  ghost predicate AllCounted(instances: Instances) {
    forall t: Tx :: Counted(Of(instances, t))
  }

  lemma StepCounts(p: Par, op: ParOp)
    requires AllCounted(p.instances) && ParLegal(p.instances, op)
    ensures AllCounted(ParApply(p, op).instances)
  {
    hide DirtiesOk, Previous, Store, UndoEntries, SetBalance, SetNonce;
    var i := Of(p.instances, op.tx);
    assert Counted(i);
    var after := ParApply(p, op).instances;
    if op.Write? {
      BumpCounts(i.log, i.dirties, StorageChange(op.account, op.key, Previous(p.ledger, op.account, op.key)));
    } else if op.Back? {
      UnbumpToCounts(i.log, i.dirties, i.revisions[RevIndex(i, op.id)].index);
    } else if op.Release? {
      NothingCounted();
    }
    assert Counted(Of(after, op.tx));
    forall t: Tx
      ensures Counted(Of(after, t))
    {
      assert t != op.tx ==> Of(after, t) == Of(p.instances, t);
    }
  }

  lemma NothingCounted()
    ensures DirtiesOk([], map[])
  {
  }

  /** In every state that an interleaving of calls reaches, every instance counts its live
      entries per address. */
  lemma {:induction false} RunCounts(p: Par, ops: seq<ParOp>)
    requires AllCounted(p.instances) && LegalRun(p, ops)
    ensures AllCounted(ParRun(p, ops).instances)
    decreases |ops|
  {
    hide AllCounted, ParApply;
    if ops != [] {
      StepCounts(p, ops[0]);
      RunCounts(ParApply(p, ops[0]), ops[1..]);
    }
  }

  /** Whatever a transaction did, its instance is given back as new. */
  lemma ReleasedIsNew(i: Instance)
    requires Counted(i)
    ensures Released(i) == NEW_INSTANCE
  {
    if i.log == [] {
      assert forall a: Address :: a !in i.dirties by {
        forall a: Address
          ensures a !in i.dirties
        {
          assert Entries(i.log, a) == 0;
        }
      }
      assert i.dirties == map[];
    }
  }

  lemma CountedFromStart(s: Ledger, ops: seq<ParOp>)
    requires LegalRun(Par(s, map[]), ops)
    ensures AllCounted(ParRun(Par(s, map[]), ops).instances)
  {
    NothingCounted();
    RunCounts(Par(s, map[]), ops);
  }

  // ---- removing one transaction ---------------------------------------------------------------------

  function Without(ops: seq<ParOp>, t: Tx): seq<ParOp>
    decreases |ops|
  {
    if ops == [] then []
    else if ops[0].tx == t then Without(ops[1..], t)
    else [ops[0]] + Without(ops[1..], t)
  }

  predicate RevsOk(i: Instance) {
    RevisionsOk(i.revisions, i.next, |i.log|)
  }

  ghost predicate SameBut(f: Instances, g: Instances, t: Tx) {
    forall u: Tx | u != t :: Of(g, u) == Of(f, u)
  }

  /** g is f with what t wrote since its snapshot at log length n undone. */
  ghost predicate Removed(f: Flat, g: Flat, owner: Owner, t: Tx, n: nat) {
    && Full(f.cells) && Full(g.cells) && AllOwned(f.instances, owner)
    && n <= |Of(f.instances, t).log|
    && g.cells == FlatUndo(f.cells, Of(f.instances, t).log, n) && g.acct == f.acct && g.extra == f.extra
    && SameBut(f.instances, g.instances, t)
  }

  lemma NotedOwned(instances: Instances, owner: Owner, op: ParOp, prev: Val)
    requires AllOwned(instances, owner) && op.Write? && Writes(op, owner)
    ensures AllOwned(instances[op.tx := Noted(Of(instances, op.tx), StorageChange(op.account, op.key, prev))], owner)
  {
    var after := instances[op.tx := Noted(Of(instances, op.tx), StorageChange(op.account, op.key, prev))];
    forall t: Tx
      ensures OwnedBy(Of(after, t).log, owner, t)
    {
      assert OwnedBy(Of(instances, t).log, owner, t);
    }
  }

  lemma RevertedOwned(instances: Instances, owner: Owner, t: Tx, i: Instance)
    requires AllOwned(instances, owner) && i.log <= Of(instances, t).log
    ensures AllOwned(instances[t := i], owner)
  {
    var after := instances[t := i];
    forall u: Tx
      ensures OwnedBy(Of(after, u).log, owner, u)
    {
      assert OwnedBy(Of(instances, u).log, owner, u);
    }
  }

  /** A step of another transaction happens alike with and without t. */
  lemma OtherStep(f: Flat, g: Flat, owner: Owner, t: Tx, n: nat, op: ParOp)
    requires Removed(f, g, owner, t, n) && op.tx != t && Writes(op, owner) && ParLegal(f.instances, op)
    ensures ParLegal(g.instances, op)
    ensures Removed(FlatApply(f, op), FlatApply(g, op), owner, t, n)
  {
    hide OwnedBy, Noted, Reverted, Snapped, FlatUndo, HasRevision;
    var log := Of(f.instances, t).log;
    assert Of(g.instances, op.tx) == Of(f.instances, op.tx);
    assert OwnedBy(log, owner, t) && OwnedBy(Of(f.instances, op.tx).log, owner, op.tx);
    match op
    case Write(u, a, k, v) =>
      FlatUndoFrame(f.cells, log, n, owner, t, (a, k));
      FlatUndoCommutes(f.cells, log, n, owner, t, (a, k), v);
      NotedOwned(f.instances, owner, op, f.cells[(a, k)]);
      SameOthers(f.instances, g.instances, t, u, Noted(Of(f.instances, u), StorageChange(a, k, f.cells[(a, k)])));
    case Snap(u) =>
      SnappedLog(Of(f.instances, u));
      RevertedOwned(f.instances, owner, u, Snapped(Of(f.instances, u)));
      SameOthers(f.instances, g.instances, t, u, Snapped(Of(f.instances, u)));
    case Back(u, id) =>
      var i := Of(f.instances, u);
      var m := BackIndex(i, id);
      FlatUndoBoth(f.cells, log, n, t, i.log, m, u, owner);
      FlatUndoFull(f.cells, i.log, m);
      FlatUndoFull(g.cells, i.log, m);
      RevertedLog(i, id);
      RevertedOwned(f.instances, owner, u, Reverted(i, id));
      SameOthers(f.instances, g.instances, t, u, Reverted(i, id));
    case Release(u) =>
      RevertedOwned(f.instances, owner, u, Released(Of(f.instances, u)));
      SameOthers(f.instances, g.instances, t, u, Released(Of(f.instances, u)));
    case _ =>
  }

  lemma SameOthers(f: Instances, g: Instances, t: Tx, u: Tx, i: Instance)
    requires SameBut(f, g, t)
    ensures SameBut(f[u := i], g[u := i], t)
  {
    var f', g' := f[u := i], g[u := i];
    forall x: Tx | x != t
      ensures Of(g', x) == Of(f', x)
    {
      assert Of(g, x) == Of(f, x);
    }
  }

  lemma SnappedLog(i: Instance)
    ensures Snapped(i).log == i.log
  {
  }

  function BackIndex(i: Instance, id: nat): nat
    requires HasRevision(i, id)
  {
    i.revisions[RevIndex(i, id)].index
  }

  lemma RevertedLog(i: Instance, id: nat)
    requires HasRevision(i, id)
    ensures BackIndex(i, id) <= |i.log| && Reverted(i, id).log == i.log[..BackIndex(i, id)]
  {
  }

  /** The calls that a change instance can undo, or that show nothing. */
  predicate Undoable(op: ParOp) {
    op.Look? || op.Read? || op.Write? || op.Snap? || op.Back?
  }

  /** A step of t itself leaves no trace once undone, as long as it does not go back
      beyond the snapshot. */
  lemma OwnStep(f: Flat, g: Flat, owner: Owner, t: Tx, n: nat, op: ParOp)
    requires Removed(f, g, owner, t, n) && op.tx == t && Writes(op, owner) && ParLegal(f.instances, op)
    requires Undoable(op)
    requires op.Back? ==> n <= BackIndex(Of(f.instances, t), op.id)
    ensures Removed(FlatApply(f, op), g, owner, t, n)
  {
    hide OwnedBy, Reverted, FlatUndo, HasRevision;
    var i := Of(f.instances, t);
    match op
    case Write(_, a, k, v) =>
      FlatUndoNoted(f.cells, i.log, (a, k), v, n);
      NotedOwned(f.instances, owner, op, f.cells[(a, k)]);
    case Snap(_) =>
      RevertedOwned(f.instances, owner, t, Snapped(i));
    case Back(_, id) =>
      RevertedLog(i, id);
      FlatUndoSplit(f.cells, i.log, BackIndex(i, id), n);
      FlatUndoFull(f.cells, i.log, BackIndex(i, id));
      RevertedOwned(f.instances, owner, t, Reverted(i, id));
    case _ =>
  }

  // ---- runs ---------------------------------------------------------------------------------------------

  ghost predicate FlatLegal(f: Flat, ops: seq<ParOp>)
    decreases |ops|
  {
    ops == [] ||
    (&& Full(f.cells) && ParLegal(f.instances, ops[0])
     && FlatLegal(FlatApply(f, ops[0]), ops[1..]))
  }

  ghost function FlatRun(f: Flat, ops: seq<ParOp>): Flat
    requires FlatLegal(f, ops)
    decreases |ops|
  {
    if ops == [] then f else FlatRun(FlatApply(f, ops[0]), ops[1..])
  }

  /** The transaction t still holds its snapshot: revision `rev` at position `at`. */
  predicate Holds(i: Instance, rev: Revision, at: nat) {
    RevsOk(i) && at < |i.revisions| && i.revisions[at] == rev
  }

  /** t does only what can be undone, and goes back only to snapshots newer than `id`. */
  predicate Newer(op: ParOp, t: Tx, id: nat) {
    op.tx == t ==> Undoable(op) && (op.Back? ==> op.id > id)
  }

  lemma HeldRevision(i: Instance, rev: Revision, at: nat)
    requires Holds(i, rev, at)
    ensures RevIndex(i, rev.id) == at && HasRevision(i, rev.id) && BackIndex(i, rev.id) == rev.index
  {
    UndoExact.IndexExact(FlatLedger.Ids(i.revisions), at);
  }

  /** Going back to a newer snapshot keeps the older one. */
  lemma StillHeld(i: Instance, rev: Revision, at: nat, id: nat)
    requires Holds(i, rev, at) && HasRevision(i, id) && id > rev.id
    ensures rev.index <= BackIndex(i, id) && Holds(Reverted(i, id), rev, at)
  {
    var j := RevIndex(i, id);
    assert FlatLedger.Ids(i.revisions)[j] == id;
    assert at < j;
  }

  lemma OwnHeld(f: Flat, t: Tx, rev: Revision, at: nat, op: ParOp)
    requires Full(f.cells) && Holds(Of(f.instances, t), rev, at) && ParLegal(f.instances, op) && Newer(op, t, rev.id)
    ensures Holds(Of(FlatApply(f, op).instances, t), rev, at)
    ensures op.Back? && op.tx == t ==> rev.index <= BackIndex(Of(f.instances, t), op.id)
  {
    hide FlatUndo, HasRevision, Reverted;
    if op.Back? && op.tx == t {
      StillHeld(Of(f.instances, t), rev, at, op.id);
    }
  }

  ghost predicate OpsOk(ops: seq<ParOp>, owner: Owner, t: Tx, id: nat) {
    forall i | 0 <= i < |ops| :: Writes(ops[i], owner) && Newer(ops[i], t, id)
  }

  /** Along any interleaving, undoing t at any time gives the run without t. */
  lemma {:induction false} RemovedRun(f: Flat, g: Flat, ops: seq<ParOp>, owner: Owner, t: Tx, rev: Revision, at: nat)
    requires Removed(f, g, owner, t, rev.index) && Holds(Of(f.instances, t), rev, at)
    requires FlatLegal(f, ops) && OpsOk(ops, owner, t, rev.id)
    ensures FlatLegal(g, Without(ops, t))
    ensures Removed(FlatRun(f, ops), FlatRun(g, Without(ops, t)), owner, t, rev.index)
    ensures Holds(Of(FlatRun(f, ops).instances, t), rev, at)
    decreases |ops|
  {
    if ops != [] {
      var op := ops[0];
      assert Writes(op, owner) && Newer(op, t, rev.id);
      OwnHeld(f, t, rev, at, op);
      assert OpsOk(ops[1..], owner, t, rev.id);
      RemovedNext(f, g, ops, owner, t, rev, at);
    }
  }

  lemma RemovedNext(f: Flat, g: Flat, ops: seq<ParOp>, owner: Owner, t: Tx, rev: Revision, at: nat)
    requires ops != [] && Removed(f, g, owner, t, rev.index)
    requires FlatLegal(f, ops) && Writes(ops[0], owner) && OpsOk(ops[1..], owner, t, rev.id)
    requires ops[0].tx == t ==> Undoable(ops[0])
    requires Holds(Of(FlatApply(f, ops[0]).instances, t), rev, at)
    requires ops[0].Back? && ops[0].tx == t ==> rev.index <= BackIndex(Of(f.instances, t), ops[0].id)
    ensures FlatLegal(g, Without(ops, t))
    ensures Removed(FlatRun(f, ops), FlatRun(g, Without(ops, t)), owner, t, rev.index)
    ensures Holds(Of(FlatRun(f, ops).instances, t), rev, at)
    decreases |ops|, 0
  {
    hide OpsOk, Writes, Holds, BackIndex, FlatApply;
    var op := ops[0];
    if op.tx == t {
      OwnStep(f, g, owner, t, rev.index, op);
      RemovedRun(FlatApply(f, op), g, ops[1..], owner, t, rev, at);
    } else {
      OtherStep(f, g, owner, t, rev.index, op);
      RemovedRun(FlatApply(f, op), FlatApply(g, op), ops[1..], owner, t, rev, at);
      var rest := Without(ops[1..], t);
      assert Without(ops, t) == [op] + rest;
      assert ([op] + rest)[1..] == rest;
    }
  }

  // ---- the result ----------------------------------------------------------------------------------------

  lemma SnapFlat(f: Flat, owner: Owner, t: Tx)
    requires Full(f.cells) && AllOwned(f.instances, owner) && RevsOk(Of(f.instances, t))
    ensures var i := Of(f.instances, t);
            var f' := FlatApply(f, Snap(t));
            Removed(f', f, owner, t, |i.log|) && Holds(Of(f'.instances, t), Revision(i.next, |i.log|), |i.revisions|)
  {
    RevertedOwned(f.instances, owner, t, Snapped(Of(f.instances, t)));
  }

  ghost predicate ParReady(p: Par, owner: Owner, t: Tx) {
    BaseOk(p.ledger.base) && AllOwned(p.instances, owner) && RevsOk(Of(p.instances, t))
  }

  predicate LegalRun(p: Par, ops: seq<ParOp>)
    decreases |ops|
  {
    ops == [] || (ParLegal(p.instances, ops[0]) && LegalRun(ParApply(p, ops[0]), ops[1..]))
  }

  function ParRun(p: Par, ops: seq<ParOp>): Par
    requires LegalRun(p, ops)
    decreases |ops|
  {
    if ops == [] then p else ParRun(ParApply(p, ops[0]), ops[1..])
  }

  lemma {:induction false} RunRefines(p: Par, f: Flat, ops: seq<ParOp>)
    requires Refines(p, f) && LegalRun(p, ops)
    ensures FlatLegal(f, ops) && Refines(ParRun(p, ops), FlatRun(f, ops))
    decreases |ops|
  {
    hide ParApply, FlatApply;
    ViewFull(p.ledger);
    if ops != [] {
      StepRefines(p, f, ops[0]);
      RunRefines(ParApply(p, ops[0]), FlatApply(f, ops[0]), ops[1..]);
    }
  }

  lemma {:induction false} RunRefinesBack(p: Par, f: Flat, ops: seq<ParOp>)
    requires Refines(p, f) && FlatLegal(f, ops)
    ensures LegalRun(p, ops)
    decreases |ops|
  {
    hide ParApply, FlatApply;
    if ops != [] {
      StepRefines(p, f, ops[0]);
      RunRefinesBack(ParApply(p, ops[0]), FlatApply(f, ops[0]), ops[1..]);
    }
  }

  /** However the calls of transactions with disjoint cells interleave, reverting one of
      them to a snapshot gives the ledger that the same interleaving gives without its
      calls since that snapshot, and the change instances of the others are the same. */
  lemma RevertRemoves(p: Par, ops: seq<ParOp>, owner: Owner, t: Tx)
    requires ParReady(p, owner, t) && OpsOk(ops, owner, t, Of(p.instances, t).next)
    requires LegalRun(ParApply(p, Snap(t)), ops)
    ensures var id := Of(p.instances, t).next;
            var q := ParRun(ParApply(p, Snap(t)), ops);
            && ParLegal(q.instances, Back(t, id)) && LegalRun(p, Without(ops, t))
            && var r, w := ParApply(q, Back(t, id)), ParRun(p, Without(ops, t));
               && View(r.ledger) == View(w.ledger) && BaseOk(r.ledger.base)
               && SameBut(r.instances, w.instances, t)
  {
    var f := FlatOf(p);
    ViewFull(p.ledger);
    assert Refines(p, f);
    var i := Of(p.instances, t);
    var rev := Revision(i.next, |i.log|);
    StepRefines(p, f, Snap(t));
    var f1 := FlatApply(f, Snap(t));
    RunRefines(ParApply(p, Snap(t)), f1, ops);
    SnapFlat(f, owner, t);
    RemovedRun(f1, f, ops, owner, t, rev, |i.revisions|);
    RunRefinesBack(p, f, Without(ops, t));
    RunRefines(p, f, Without(ops, t));
    Finish(ParRun(ParApply(p, Snap(t)), ops), FlatRun(f1, ops), FlatRun(f, Without(ops, t)),
           owner, t, rev, |i.revisions|);
  }

  lemma {:induction false} RunAppend(p: Par, ops: seq<ParOp>, op: ParOp)
    requires LegalRun(p, ops) && ParLegal(ParRun(p, ops).instances, op)
    ensures LegalRun(p, ops + [op]) && ParRun(p, ops + [op]) == ParApply(ParRun(p, ops), op)
    decreases |ops|
  {
    hide ParApply, ParLegal;
    var all := ops + [op];
    if ops == [] {
      assert all[1..] == [];
      assert LegalRun(ParApply(p, op), all[1..]) && ParRun(ParApply(p, op), all[1..]) == ParApply(p, op);
    } else {
      assert all[0] == ops[0] && all[1..] == ops[1..] + [op];
      RunAppend(ParApply(p, ops[0]), ops[1..], op);
    }
  }

  lemma {:induction false} WithoutAppend(ops: seq<ParOp>, op: ParOp)
    ensures Without(ops + [op], op.tx) == Without(ops, op.tx)
    decreases |ops|
  {
    var all := ops + [op];
    if ops == [] {
      assert all[1..] == [];
    } else {
      assert all[0] == ops[0] && all[1..] == ops[1..] + [op];
      WithoutAppend(ops[1..], op);
    }
  }

  lemma Finish(q: Par, f: Flat, g: Flat, owner: Owner, t: Tx, rev: Revision, at: nat)
    requires Refines(q, f) && Removed(f, g, owner, t, rev.index) && Holds(Of(f.instances, t), rev, at)
    ensures ParLegal(q.instances, Back(t, rev.id)) && BaseOk(ParApply(q, Back(t, rev.id)).ledger.base)
    ensures View(ParApply(q, Back(t, rev.id)).ledger) == Obs(g.acct, g.cells, g.extra)
    ensures SameBut(ParApply(q, Back(t, rev.id)).instances, g.instances, t)
  {
    hide View, BaseOk, FlatUndo, UndoEntries, UnbumpTo, OwnedBy;
    HeldRevision(Of(f.instances, t), rev, at);
    StepRefines(q, f, Back(t, rev.id));
    var r := ParApply(q, Back(t, rev.id)).instances;
    forall u: Tx | u != t
      ensures Of(g.instances, u) == Of(r, u)
    {
      assert Of(r, u) == Of(f.instances, u);
    }
  }
}
