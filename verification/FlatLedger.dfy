/** The state ledger refines a flat map with whole-state snapshots.

    The flat machine keeps one value per address and per (address, key).  Its
    `Snapshot` copies the state and notes which accounts are stale, and its `Revert`
    puts the copy back everywhere but at those.  The ledger instead keeps overlays on a
    cache on tables, and an undo log. */
module FlatLedger {
  import opened GoBytes
  import opened LedgerModel
  import opened LedgerView
  import opened LedgerSteps
  import opened LedgerUndo

  datatype Op =
    | GetAccount(addr: Address)
    | GetState(addr: Address, key: Key)
    | GetCode(addr: Address)
    | PutBalance(addr: Address, balance: int)
    | PutNonce(addr: Address, nonce: nat)
    | PutCode(addr: Address, code: Val)
    | PutState(addr: Address, key: Key, value: Val)
    | PutStateUnlogged(addr: Address, key: Key, value: Val)
    | GainRefund(gas: nat)
    | UseRefund(gas: nat)
    | NotePreimage(hash: Bytes, image: Bytes)
    | EmitLog(entry: Bytes)
    | AccessAddress(addr: Address)
    | AccessSlot(addr: Address, slot: Bytes)
    | TakeSnapshot
    | Revert(id: nat)
    | EndTx
    | BeginTx(hash: TxHash)

  function Ids(revs: seq<Revision>): seq<nat> {
    seq(|revs|, i requires 0 <= i < |revs| => revs[i].id)
  }

  /** The first position holding `id`, or the length. */
  function IndexOf(ids: seq<nat>, id: nat): nat
    ensures IndexOf(ids, id) <= |ids|
    ensures IndexOf(ids, id) < |ids| ==> ids[IndexOf(ids, id)] == id
  {
    if ids == [] || ids[0] == id then 0 else 1 + IndexOf(ids[1..], id)
  }

  // ---- the ledger --------------------------------------------------------------------

  /** The calls that do not panic: the refund counter stays non-negative, and the
      revision exists and can be unwound to. */
  predicate Callable(s: Ledger, op: Op) {
    match op
    case UseRefund(gas) => gas <= s.extra.refund
    case Revert(id) =>
      var i := IndexOf(Ids(s.revisions), id);
      i < |s.revisions| && Revertible(s, s.revisions[i].index)
    case _ => true
  }

  /** The calls that keep the layers coherent: values that the code tells apart from nil,
      and unlogged writes of keys whose stored value is known. */
  predicate Legal(s: Ledger, op: Op) {
    && Callable(s, op)
    && match op
       case PutCode(a, c) => CodeFits(s.base, a, c)
       case PutState(_, _, v) => Proper(v)
       case PutStateUnlogged(a, k, v) => Proper(v) && KeyKnown(s, a, k)
       case BeginTx(_) => s.revisions == []
       case _ => true
  }

  function Apply(s: Ledger, op: Op): Ledger
    requires Callable(s, op)
  {
    match op
    case GetAccount(a) => Touch(s, a)
    case GetState(a, k) => ReadState(s, a, k)
    case GetCode(a) => ReadCode(s, a)
    case PutBalance(a, v) => SetBalance(s, a, v)
    case PutNonce(a, n) => SetNonce(s, a, n)
    case PutCode(a, c) => SetCode(s, a, c)
    case PutState(a, k, v) => SetState(s, a, k, v)
    case PutStateUnlogged(a, k, v) => AddState(s, a, k, v)
    case GainRefund(gas) => AddRefund(s, gas)
    case UseRefund(gas) => SubRefund(s, gas)
    case NotePreimage(h, image) => AddPreimage(s, h, image)
    case EmitLog(entry) => AddLog(s, entry)
    case AccessAddress(a) => AddAccessAddress(s, a)
    case AccessSlot(a, slot) => AddAccessSlot(s, a, slot)
    case TakeSnapshot => Snapshot(s)
    case Revert(id) => RevertToSnapshot(s, IndexOf(Ids(s.revisions), id))
    case EndTx => Finalise(s)
    case BeginTx(h) => PrepareTx(s, h)
  }

  // ---- the flat machine -----------------------------------------------------------------

  /** A copy of the state, and the accounts that were stale when it was taken. */
  datatype Saved = Saved(id: nat, obs: Obs, stale: set<Address>)
  datatype Flat = Flat(cur: Obs, saved: seq<Saved>, next: nat)

  function SavedIds(saved: seq<Saved>): seq<nat> {
    seq(|saved|, i requires 0 <= i < |saved| => saved[i].id)
  }

  function FlatExtra(x: Extra, op: Op): Extra {
    match op
    case GainRefund(gas) => x.(refund := (x.refund + gas) % UINT64)
    case UseRefund(gas) => x.(refund := if gas <= x.refund then x.refund - gas else x.refund)
    case NotePreimage(h, image) => if h in x.preimages then x else x.(preimages := x.preimages[h := image])
    case EmitLog(entry) => x.(logs := x.logs[x.txHash := LogsOf(x, x.txHash) + [entry]], logSize := x.logSize + 1)
    case AccessAddress(a) => if a in x.access then x else x.(access := x.access[a := {}])
    case AccessSlot(a, slot) => x.(access := x.access[a := (if a in x.access then x.access[a] else {}) + {slot}])
    case EndTx => x.(refund := 0)
    case BeginTx(h) => x.(txHash := h, access := map[])
    case _ => x
  }

  ghost function FlatObs(o: Obs, op: Op): Obs {
    match op
    case PutBalance(a, v) => if a in o.acct then WithBasics(o, a, o.acct[a].(balance := v)) else o
    case PutNonce(a, n) => if a in o.acct then WithBasics(o, a, o.acct[a].(nonce := n)) else o
    case PutCode(a, c) => if a in o.acct then WithBasics(o, a, o.acct[a].(code := c)) else o
    case PutState(a, k, v) => WithFlatState(o, a, k, v)
    case PutStateUnlogged(a, k, v) => WithFlatState(o, a, k, v)
    case _ => o.(extra := FlatExtra(o.extra, op))
  }

  /** The copy, with the cells of the stale accounts as they are now. */
  ghost function Blend(copy: Obs, cur: Obs, stale: set<Address>): Obs {
    Obs(imap a | a in copy.acct :: if a in stale && a in cur.acct then cur.acct[a] else copy.acct[a],
        imap p | p in copy.state :: if p.0 in stale && p in cur.state then cur.state[p] else copy.state[p],
        copy.extra)
  }

  /** An entry whose undo overwrites the cell. */
  predicate Restores(e: Change, a: Address, k: Key) {
    e == CreateObject(a) || (e.StorageChange? && e.account == a && e.key == k)
  }

  /** Some entry from `n` on does. */
  predicate Guarded(log: seq<Change>, n: nat, a: Address, k: Key) {
    exists i :: n <= i < |log| && Restores(log[i], a, k)
  }

  /** What the flat machine has to be told about the ledger: the stale accounts, and for an
      unlogged write the snapshots that it slips under. */
  datatype Advice = Advice(stale: set<Address>, through: seq<bool>)

  function AdviceOf(s: Ledger, op: Op): Advice {
    Advice(Stale(s), if op.PutStateUnlogged? then Through(s, op.addr, op.key) else [])
  }

  function Through(s: Ledger, a: Address, k: Key): seq<bool> {
    seq(|s.revisions|, i requires 0 <= i < |s.revisions| =>
      Tracks(s, a) && !Guarded(Touch(s, a).log, s.revisions[i].index, a, k))
  }

  /** An unlogged write also changes the copies that no logged change protects. */
  ghost function WrittenThrough(saved: seq<Saved>, op: Op, through: seq<bool>): seq<Saved> {
    seq(|saved|, i requires 0 <= i < |saved| =>
      if i < |through| && through[i] then saved[i].(obs := FlatObs(saved[i].obs, op)) else saved[i])
  }

  ghost function FlatApply(f: Flat, op: Op, adv: Advice): Flat {
    match op
    case TakeSnapshot => Flat(f.cur, f.saved + [Saved(f.next, f.cur, adv.stale)], f.next + 1)
    case Revert(id) =>
      var i := IndexOf(SavedIds(f.saved), id);
      if i < |f.saved| then Flat(Blend(f.saved[i].obs, f.cur, f.saved[i].stale), f.saved[..i], f.next) else f
    case EndTx => Flat(FlatObs(f.cur, op), [], 0)
    case PutStateUnlogged(_, _, _) =>
      f.(cur := FlatObs(f.cur, op), saved := WrittenThrough(f.saved, op, adv.through))
    case _ => f.(cur := FlatObs(f.cur, op))
  }

  // ---- the refinement -------------------------------------------------------------------

  /** What the log restores for a snapshot is the copy, but for the stale accounts. */
  ghost predicate SavedOk(s: Ledger, v: Saved, r: Revision) {
    && v.id == r.id && v.stale == Stale(s)
    && Blend(v.obs, View(s), Stale(s)) == Unwind(FloorOf(s.base), View(s), s.log, r.index)
  }

  ghost predicate Refines(s: Ledger, f: Flat) {
    && Valid(s) && f.cur == View(s) && f.next == s.nextRevision
    && |f.saved| == |s.revisions|
    && (forall i | 0 <= i < |f.saved| :: SavedOk(s, f.saved[i], s.revisions[i]))
  }

  // ---- blending --------------------------------------------------------------------------

  /** A flat state that has every cell. */
  ghost predicate Full(o: Obs) {
    (forall a: Address :: a in o.acct) && (forall p: (Address, Key) :: p in o.state)
  }

  ghost predicate AgreeOn(o: Obs, p: Obs, stale: set<Address>) {
    && (forall a: Address | a in stale :: a in o.acct && a in p.acct && o.acct[a] == p.acct[a])
    && (forall q: (Address, Key) | q.0 in stale :: q in o.state && q in p.state && o.state[q] == p.state[q])
  }

  lemma ViewTotal(s: Ledger)
    ensures Full(View(s))
  {
  }

  lemma BlendAgree(copy: Obs, o: Obs, p: Obs, stale: set<Address>)
    requires AgreeOn(o, p, stale)
    ensures Blend(copy, o, stale) == Blend(copy, p, stale)
  {
  }

  lemma BlendSelf(o: Obs, stale: set<Address>)
    ensures Blend(o, o, stale) == o
  {
  }

  /** With nothing stale a revert puts back the copy itself. */
  lemma BlendNone(copy: Obs, cur: Obs)
    ensures Blend(copy, cur, {}) == copy
  {
  }

  lemma BlendTwice(copy: Obs, o: Obs, p: Obs, stale: set<Address>)
    requires Full(o) && Full(p)
    ensures Blend(Blend(copy, o, stale), p, stale) == Blend(copy, p, stale)
  {
  }

  lemma BlendKeeps(copy: Obs, cur: Obs, stale: set<Address>)
    requires Full(cur) && Full(Blend(copy, cur, stale))
    ensures AgreeOn(cur, Blend(copy, cur, stale), stale)
  {
  }

  /** A write outside the stale accounts goes to the copy. */
  lemma BlendWrite(copy: Obs, cur: Obs, stale: set<Address>, a: Address, k: Key, v: Val)
    requires a !in stale
    ensures Blend(WithFlatState(copy, a, k, v), WithFlatState(cur, a, k, v), stale) ==
            WithFlatState(Blend(copy, cur, stale), a, k, v)
    ensures Blend(copy, WithFlatState(cur, a, k, v), stale) == Blend(copy, cur, stale)
  {
  }

  lemma UndoBlendAcct(fl: Floor, o: Obs, p: Obs, stale: set<Address>, e: Change)
    requires Full(o) && Full(p) && (Dirtied(e).Some? ==> Dirtied(e).value !in stale)
    ensures Undo(fl, Blend(o, p, stale), e).acct == Blend(Undo(fl, o, e), p, stale).acct
    ensures Undo(fl, Blend(o, p, stale), e).extra == Undo(fl, o, e).extra
  {
    hide RevertExtra, UndoBasics, UndoState;
  }

  /** One cell after an undo. */
  ghost function CellAfter(fl: Floor, o: Obs, e: Change, q: (Address, Key)): Val
    requires q in o.state
  {
    if e == CreateObject(q.0) && q in fl.state then fl.state[q]
    else if e.StorageChange? && q == (e.account, e.key) then e.prevValue
    else o.state[q]
  }

  lemma UndoAt(fl: Floor, o: Obs, e: Change, q: (Address, Key))
    requires Full(o)
    ensures q in Undo(fl, o, e).state && Undo(fl, o, e).state[q] == CellAfter(fl, o, e, q)
  {
    hide RevertExtra, UndoBasics;
  }

  lemma BlendFull(o: Obs, p: Obs, stale: set<Address>)
    requires Full(o) && Full(p)
    ensures Full(Blend(o, p, stale))
    ensures forall q: (Address, Key) ::
              Blend(o, p, stale).state[q] == if q.0 in stale then p.state[q] else o.state[q]
  {
  }

  lemma UndoBlendState(fl: Floor, o: Obs, p: Obs, stale: set<Address>, e: Change)
    requires Full(o) && Full(p) && (Dirtied(e).Some? ==> Dirtied(e).value !in stale)
    ensures Undo(fl, Blend(o, p, stale), e).state == Blend(Undo(fl, o, e), p, stale).state
  {
    hide Undo, Blend;
    BlendFull(o, p, stale);
    UndoFull(fl, o, e);
    BlendFull(Undo(fl, o, e), p, stale);
    var l, r := Undo(fl, Blend(o, p, stale), e).state, Blend(Undo(fl, o, e), p, stale).state;
    forall q: (Address, Key)
      ensures q in l && q in r && l[q] == r[q]
    {
      UndoAt(fl, Blend(o, p, stale), e, q);
      UndoAt(fl, o, e, q);
    }
  }

  /** Undoing entries that speak of no stale account does not look at the stale cells. */
  lemma UndoBlend(fl: Floor, o: Obs, p: Obs, stale: set<Address>, e: Change)
    requires Full(o) && Full(p) && (Dirtied(e).Some? ==> Dirtied(e).value !in stale)
    ensures Undo(fl, Blend(o, p, stale), e) == Blend(Undo(fl, o, e), p, stale)
  {
    hide Undo;
    UndoBlendAcct(fl, o, p, stale, e);
    UndoBlendState(fl, o, p, stale, e);
  }

  lemma UndoFull(fl: Floor, o: Obs, e: Change)
    requires Full(o)
    ensures Full(Undo(fl, o, e))
  {
  }

  lemma {:induction false} UnwindBlend(fl: Floor, o: Obs, p: Obs, stale: set<Address>, log: seq<Change>, n: nat)
    requires Full(o) && Full(p)
    requires forall i | n <= i < |log| && Dirtied(log[i]).Some? :: Dirtied(log[i]).value !in stale
    ensures Unwind(fl, Blend(o, p, stale), log, n) == Blend(Unwind(fl, o, log, n), p, stale)
    decreases |log|
  {
    hide Blend, Undo, Full;
    if |log| > n {
      var e := log[|log| - 1];
      UndoBlend(fl, o, p, stale, e);
      UndoFull(fl, o, e);
      UnwindBlend(fl, Undo(fl, o, e), p, stale, log[..|log| - 1], n);
    }
  }

  // ---- steps -----------------------------------------------------------------------------

  lemma KeepsRefines(s: Ledger, t: Ledger, f: Flat)
    requires Refines(s, f) && Coherent(t) && LogTracked(t)
    requires t.revisions == s.revisions && t.nextRevision == s.nextRevision
    requires s.revisions != [] ==> Keeps(s, t) && Stale(t) == Stale(s) && AgreeOn(View(s), View(t), Stale(s))
    ensures Refines(t, f.(cur := View(t)))
  {
    hide Ready, Unwind, FloorOf, View, BaseOk, AccountOk, DirtiesOk, LogsOk, Blend, AgreeOn, LogTracked, Stale;
    var g := f.(cur := View(t));
    forall i | 0 <= i < |g.saved|
      ensures SavedOk(t, g.saved[i], t.revisions[i])
    {
      assert SavedOk(s, f.saved[i], s.revisions[i]) && s.revisions[i].index <= |s.log|;
      BlendAgree(f.saved[i].obs, View(s), View(t), Stale(s));
    }
    if s.revisions != [] {
      assert Ready(s, s.revisions[0].index);
    }
  }

  lemma Unchanged(s: Ledger, a: Address)
    ensures Touch(s, a).revisions == s.revisions && Touch(s, a).nextRevision == s.nextRevision
  {
  }

  // ---- which accounts log where --------------------------------------------------------

  lemma TouchTracked(s: Ledger, a: Address)
    requires LogTracked(s)
    ensures LogTracked(Touch(s, a)) && Stale(Touch(s, a)) == Stale(s)
    ensures Tracks(s, a) <==> Tracks(Touch(s, a), a)
  {
    var t := Touch(s, a);
    forall i | 0 <= i < |t.log| && Dirtied(t.log[i]).Some?
      ensures Tracks(t, Dirtied(t.log[i]).value)
    {
      assert i < |s.log| ==> t.log[i] == s.log[i] && Tracks(s, Dirtied(s.log[i]).value);
    }
  }

  /** Replacing an account by one that logs to the same place, with or without an entry. */
  lemma WrittenTracked(s: Ledger, a: Address, acc: Account, e: Change)
    requires LogTracked(s) && a in s.accounts && acc.tracked == s.accounts[a].tracked
    requires Dirtied(e) == Some(a)
    ensures LogTracked(WithAccount(s, a, acc)) && Stale(WithAccount(s, a, acc)) == Stale(s)
    ensures LogTracked(Written(s, a, acc, e)) && Stale(Written(s, a, acc, e)) == Stale(s)
  {
    var t := Written(s, a, acc, e);
    assert forall c: Address :: Tracks(WithAccount(s, a, acc), c) <==> Tracks(s, c);
    forall i | 0 <= i < |t.log| && Dirtied(t.log[i]).Some?
      ensures Tracks(t, Dirtied(t.log[i]).value)
    {
      assert i < |s.log| ==> t.log[i] == s.log[i] && Tracks(s, Dirtied(s.log[i]).value);
    }
  }

  lemma NotedTracked(s: Ledger, e: Change, x: Extra)
    requires LogTracked(s) && Dirtied(e).None?
    ensures LogTracked(Noted(s, e, x)) && Stale(Noted(s, e, x)) == Stale(s)
  {
    var t := Noted(s, e, x);
    forall i | 0 <= i < |t.log| && Dirtied(t.log[i]).Some?
      ensures Tracks(t, Dirtied(t.log[i]).value)
    {
      assert i < |s.log| ==> t.log[i] == s.log[i] && Tracks(s, Dirtied(s.log[i]).value);
    }
  }

  predicate IsRead(op: Op) {
    op.GetAccount? || op.GetState? || op.GetCode?
  }

  predicate IsWrite(op: Op) {
    op.PutBalance? || op.PutNonce? || op.PutCode? || op.PutState? || op.PutStateUnlogged?
  }

  /** Reads and writes leave every account logging where it did. */
  lemma AccountTracked(s: Ledger, op: Op)
    requires LogTracked(s) && (IsRead(op) || IsWrite(op))
    ensures LogTracked(Apply(s, op)) && Stale(Apply(s, op)) == Stale(s)
  {
    hide LogTracked, Stale, Touch, StateOf, CodeOf, BaseState, BaseCode, Current;
    var a := op.addr;
    TouchTracked(s, a);
    TouchShape(s, a);
    var u := Touch(s, a);
    var acc := u.accounts[a];
    match op
    case GetAccount(_) =>
    case GetCode(_) => WrittenTracked(u, a, LoadCode(acc, BaseCode(u.base, a)), CreateObject(a));
    case GetState(_, k) => WrittenTracked(u, a, LoadState(acc, BaseState(u.base, a, k), k), CreateObject(a));
    case PutBalance(_, v) => WrittenTracked(u, a, WithBalance(acc, v), BalanceChange(a, BalanceOf(Current(acc))));
    case PutNonce(_, n) => WrittenTracked(u, a, WithNonce(acc, n), NonceChange(a, NonceOf(Current(acc))));
    case PutStateUnlogged(_, k, v) => WrittenTracked(u, a, WithState(acc, k, v), CreateObject(a));
    case PutCode(_, c) =>
      WrittenTracked(u, a, LoadCode(acc, BaseCode(u.base, a)), CreateObject(a));
      var w := ReadCode(s, a);
      WrittenTracked(w, a, WithCode(w.accounts[a], c), CodeChange(a, CodeOf(w.accounts[a], BaseCode(w.base, a))));
    case PutState(_, k, v) =>
      WrittenTracked(u, a, LoadState(acc, BaseState(u.base, a, k), k), CreateObject(a));
      var w := ReadState(s, a, k);
      var prev := StateOf(w.accounts[a], BaseState(w.base, a, k), k);
      WrittenTracked(w, a, WithState(w.accounts[a], k, v), StorageChange(a, k, prev));
  }

  lemma ReadRefines(s: Ledger, f: Flat, op: Op)
    requires Refines(s, f) && IsRead(op)
    ensures Refines(Apply(s, op), FlatApply(f, op, AdviceOf(s, op)))
  {
    hide Refines, Coherent, View, Keeps, Touch, ReadState, Stale, LogTracked, AgreeOn;
    RefinesExtra(s, f);
    TouchStep(s, op.addr);
    Unchanged(s, op.addr);
    AccountTracked(s, op);
    AgreeSelf(s);
    match op
    case GetAccount(a) => KeepsRefines(s, Touch(s, a), f);
    case GetCode(a) =>
      ReadCodeStep(s, a);
      KeepsRefines(s, Touch(s, a), f);
    case GetState(a, k) =>
      ReadStateStep(s, a, k);
      KeepsRefines(s, ReadState(s, a, k), f);
  }

  lemma AgreeSelf(s: Ledger)
    ensures AgreeOn(View(s), View(s), Stale(s))
  {
  }

  lemma ReadCodeStep(s: Ledger, a: Address)
    requires Coherent(s)
    ensures ReadCode(s, a) == Touch(s, a)
  {
    hide Keeps, View, BaseOk, AccountOk, DirtiesOk, RevisionsOk, Touch, LoadCode;
    TouchStep(s, a);
    var u := Touch(s, a);
    AccountCode(u.base, a, u.accounts[a]);
    assert u.accounts[a := u.accounts[a]] == u.accounts;
  }

  /** A write to an account that is not stale is undone by its entry. */
  lemma TrackedWriteRefines(s: Ledger, f: Flat, op: Op)
    requires Refines(s, f) && Legal(s, op) && IsWrite(op) && !op.PutStateUnlogged? && Tracks(s, op.addr)
    ensures Refines(Apply(s, op), FlatApply(f, op, AdviceOf(s, op)))
  {
    hide Refines, Coherent, Keeps, View, BaseState, BaseCode, Touch, LogTracked, Stale, AgreeOn, Proper;
    RefinesExtra(s, f);
    Unchanged(s, op.addr);
    AccountTracked(s, op);
    WriteAgrees(s, op);
    match op
    case PutBalance(a, v) => SetBalanceStep(s, a, v); KeepsRefines(s, Apply(s, op), f);
    case PutNonce(a, n) => SetNonceStep(s, a, n); KeepsRefines(s, Apply(s, op), f);
    case PutCode(a, c) => SetCodeStep(s, a, c); KeepsRefines(s, Apply(s, op), f);
    case PutState(a, k, v) => SetStateStep(s, a, k, v); KeepsRefines(s, Apply(s, op), f);
  }

  /** A write shows at its own address only. */
  lemma WriteLocal(o: Obs, op: Op, stale: set<Address>)
    requires IsWrite(op) && Full(o)
    ensures Full(FlatObs(o, op))
    ensures op.addr !in stale ==> AgreeOn(o, FlatObs(o, op), stale)
  {
  }

  lemma BasicsBlend(o: Obs, a: Address, b: Basics, stale: set<Address>)
    requires Full(o) && a in stale
    ensures WithBasics(o, a, b) == Blend(o, WithBasics(o, a, b), stale)
  {
    var p := WithBasics(o, a, b);
    assert p.acct == Blend(o, p, stale).acct;
    assert p.state == Blend(o, p, stale).state;
  }

  lemma StateBlend(o: Obs, a: Address, k: Key, v: Val, stale: set<Address>)
    requires Full(o) && a in stale
    ensures WithFlatState(o, a, k, v) == Blend(o, WithFlatState(o, a, k, v), stale)
  {
    var p := WithFlatState(o, a, k, v);
    assert p.acct == Blend(o, p, stale).acct;
    assert p.state == Blend(o, p, stale).state;
  }

  lemma WriteBlends(o: Obs, op: Op, stale: set<Address>)
    requires IsWrite(op) && Full(o) && op.addr in stale
    ensures FlatObs(o, op) == Blend(o, FlatObs(o, op), stale)
  {
    hide Blend, WithBasics, WithFlatState;
    match op
    case PutBalance(a, v) => BasicsBlend(o, a, o.acct[a].(balance := v), stale);
    case PutNonce(a, n) => BasicsBlend(o, a, o.acct[a].(nonce := n), stale);
    case PutCode(a, c) => BasicsBlend(o, a, o.acct[a].(code := c), stale);
    case PutState(a, k, v) => StateBlend(o, a, k, v, stale);
    case PutStateUnlogged(a, k, v) => StateBlend(o, a, k, v, stale);
  }

  lemma WriteAgrees(s: Ledger, op: Op)
    requires IsWrite(op)
    ensures Tracks(s, op.addr) ==> AgreeOn(View(s), FlatObs(View(s), op), Stale(s))
    ensures !Tracks(s, op.addr) ==> FlatObs(View(s), op) == Blend(View(s), FlatObs(View(s), op), Stale(s))
  {
    hide View, AgreeOn, Blend, Full, FlatObs;
    ViewTotal(s);
    WriteLocal(View(s), op, Stale(s));
    if !Tracks(s, op.addr) {
      WriteBlends(View(s), op, Stale(s));
    }
  }

  /** A write to a stale account leaves no entry: every snapshot sees it. */
  lemma StaleRefines(s: Ledger, t: Ledger, f: Flat)
    requires Refines(s, f) && Coherent(t) && LogTracked(t) && Stale(t) == Stale(s)
    requires t.base == s.base && t.log == s.log && t.extra == s.extra
    requires t.revisions == s.revisions && t.nextRevision == s.nextRevision
    requires Grows(s.accounts, t.accounts) && View(t) == Blend(View(s), View(t), Stale(s))
    ensures Refines(t, f.(cur := View(t)))
  {
    hide Unwind, FloorOf, View, BaseOk, AccountOk, DirtiesOk, LogsOk, Blend, AgreeOn, Stale, EntryFits;
    forall i | 0 <= i < |f.saved|
      ensures SavedOk(t, f.saved[i], t.revisions[i])
    {
      assert SavedOk(s, f.saved[i], s.revisions[i]);
      ViewTotal(s);
      ViewTotal(t);
      LogSparesStale(s);
      UnwindBlend(FloorOf(s.base), View(s), View(t), Stale(s), s.log, s.revisions[i].index);
      BlendTwice(f.saved[i].obs, View(s), View(t), Stale(s));
    }
    if s.revisions != [] {
      var n := s.revisions[0].index;
      LiveLogMonotone(FloorOf(s.base), s.accounts.Keys, t.accounts.Keys, s.extra, s.log, n);
      FitsStay(s.accounts, t.accounts, s.log, n);
    }
  }

  lemma FitsStay(accs: map<Address, Account>, more: map<Address, Account>, log: seq<Change>, n: nat)
    requires Grows(accs, more) && forall i | n <= i < |log| :: EntryFits(accs, log[i])
    ensures forall i | n <= i < |log| :: EntryFits(more, log[i])
  {
  }

  lemma LogSparesStale(s: Ledger)
    requires LogTracked(s)
    ensures forall i | 0 <= i < |s.log| && Dirtied(s.log[i]).Some? :: Dirtied(s.log[i]).value !in Stale(s)
  {
  }

  /** What a write to a stale account leaves alone. */
  lemma StaleWriteShape(s: Ledger, op: Op)
    requires Legal(s, op) && IsWrite(op) && !Tracks(s, op.addr)
    ensures var t := Apply(s, op);
            && t.base == s.base && t.log == s.log && t.extra == s.extra
            && t.revisions == s.revisions && t.nextRevision == s.nextRevision
  {
    hide BaseState, BaseCode, StateOf, CodeOf, Touch, MutableInner;
    UnreadKeys(s, op.addr);
  }

  lemma StaleWriteGrows(s: Ledger, op: Op)
    requires Coherent(s) && Legal(s, op) && IsWrite(op) && !Tracks(s, op.addr)
    ensures Grows(s.accounts, Apply(s, op).accounts)
  {
    hide BaseState, BaseCode, StateOf, CodeOf, Coherent, Touch, MutableInner;
    UnreadKeys(s, op.addr);
    if op.PutCode? {
      ReadCodeStep(s, op.addr);
    }
  }

  lemma StaleWriteRefines(s: Ledger, f: Flat, op: Op)
    requires Refines(s, f) && Legal(s, op) && IsWrite(op) && !Tracks(s, op.addr)
    ensures Refines(Apply(s, op), FlatApply(f, op, AdviceOf(s, op)))
  {
    hide Refines, Coherent, Keeps, View, BaseState, BaseCode, Touch, LogTracked, Stale, AgreeOn, Blend, Proper;
    RefinesExtra(s, f);
    AccountTracked(s, op);
    WriteAgrees(s, op);
    StaleWriteShape(s, op);
    StaleWriteGrows(s, op);
    WriteStep(s, op);
    StaleRefines(s, Apply(s, op), f);
    if op.PutStateUnlogged? {
      NothingThrough(s, f, op);
    }
  }

  lemma WriteStep(s: Ledger, op: Op)
    requires Coherent(s) && Legal(s, op) && IsWrite(op)
    ensures Coherent(Apply(s, op)) && View(Apply(s, op)) == FlatObs(View(s), op)
  {
    hide Coherent, Keeps, BaseState, BaseCode, Touch, BasicsAt, StateAt;
    match op
    case PutBalance(a, v) => SetBalanceStep(s, a, v);
    case PutNonce(a, n) => SetNonceStep(s, a, n);
    case PutCode(a, c) => SetCodeStep(s, a, c);
    case PutState(a, k, v) => SetStateStep(s, a, k, v);
    case PutStateUnlogged(a, k, v) => AddStateStep(s, a, k, v);
  }

  lemma NothingThrough(s: Ledger, f: Flat, op: Op)
    requires op.PutStateUnlogged? && !Tracks(s, op.addr)
    ensures FlatApply(f, op, AdviceOf(s, op)) == f.(cur := FlatObs(f.cur, op))
  {
    assert WrittenThrough(f.saved, op, AdviceOf(s, op).through) == f.saved;
  }

  // ---- unlogged writes -------------------------------------------------------------------

  lemma UndoCell(fl: Floor, o: Obs, e: Change, a: Address, k: Key, v: Val)
    requires Full(o) && (a, k) in fl.state
    ensures Undo(fl, WithFlatState(o, a, k, v), e) ==
            if Restores(e, a, k) then Undo(fl, o, e) else WithFlatState(Undo(fl, o, e), a, k, v)
  {
    var w := Undo(fl, WithFlatState(o, a, k, v), e);
    assert w.state == (if Restores(e, a, k) then Undo(fl, o, e) else WithFlatState(Undo(fl, o, e), a, k, v)).state;
  }

  /** Undoing the log overwrites an unlogged write exactly when an entry guards the cell. */
  lemma {:induction false} UnwindCell(fl: Floor, o: Obs, log: seq<Change>, n: nat, a: Address, k: Key, v: Val)
    requires Full(o) && (a, k) in fl.state
    ensures Unwind(fl, WithFlatState(o, a, k, v), log, n) ==
            if Guarded(log, n, a, k) then Unwind(fl, o, log, n) else WithFlatState(Unwind(fl, o, log, n), a, k, v)
    decreases |log|
  {
    hide Undo, Restores, Full;
    if |log| > n {
      var e, rest := log[|log| - 1], log[..|log| - 1];
      UndoFull(fl, o, e);
      UndoCell(fl, o, e, a, k, v);
      GuardedSplit(log, n, a, k);
      if !Restores(e, a, k) {
        UnwindCell(fl, Undo(fl, o, e), rest, n, a, k, v);
      }
    }
  }

  lemma GuardedSplit(log: seq<Change>, n: nat, a: Address, k: Key)
    requires |log| > n
    ensures Guarded(log, n, a, k) <==> Restores(log[|log| - 1], a, k) || Guarded(log[..|log| - 1], n, a, k)
  {
    hide Restores;
    var rest := log[..|log| - 1];
    if Guarded(log, n, a, k) && !Restores(log[|log| - 1], a, k) {
      var i :| n <= i < |log| && Restores(log[i], a, k);
      assert Restores(rest[i], a, k);
    }
    if Guarded(rest, n, a, k) {
      var i :| n <= i < |rest| && Restores(rest[i], a, k);
      assert Restores(log[i], a, k);
    }
  }

  /** One copy, under an unlogged write to an account that is not stale. */
  lemma UnloggedSaved(u: Ledger, t: Ledger, op: Op, v: Saved, r: Revision, w: Saved)
    requires op.PutStateUnlogged? && op.addr !in Stale(u) && SavedOk(u, v, r)
    requires t.base == u.base && t.log == u.log && Stale(t) == Stale(u) && View(t) == FlatObs(View(u), op)
    requires w == if Guarded(u.log, r.index, op.addr, op.key) then v else v.(obs := FlatObs(v.obs, op))
    ensures SavedOk(t, w, r)
  {
    hide View, Unwind, Blend, Guarded, Stale;
    var fl := FloorOf(u.base);
    ViewTotal(u);
    UnwindCell(fl, View(u), u.log, r.index, op.addr, op.key, op.value);
    BlendWrite(v.obs, View(u), Stale(u), op.addr, op.key, op.value);
  }

  /** The copies that an unlogged write reaches are those that no entry guards. */
  lemma UnloggedTracked(u: Ledger, f: Flat, op: Op, through: seq<bool>)
    requires Refines(u, f) && Legal(u, op) && op.PutStateUnlogged?
    requires op.addr in u.accounts && op.addr !in Stale(u)
    requires |through| == |u.revisions| &&
             forall i | 0 <= i < |through| :: through[i] == !Guarded(u.log, u.revisions[i].index, op.addr, op.key)
    ensures Refines(Apply(u, op), Flat(FlatObs(f.cur, op), WrittenThrough(f.saved, op, through), f.next))
  {
    hide View, FloorOf, BaseState, Stale, Guarded, EntryFits, LogTracked, Coherent, SavedOk, FlatObs, LiveLog;
    var t, saved := Apply(u, op), WrittenThrough(f.saved, op, through);
    WriteStep(u, op);
    AccountTracked(u, op);
    forall i | 0 <= i < |saved|
      ensures SavedOk(t, saved[i], t.revisions[i])
    {
      UnloggedSaved(u, t, op, f.saved[i], u.revisions[i], saved[i]);
    }
    if u.revisions != [] {
      var n := u.revisions[0].index;
      assert Ready(u, n) && t.accounts.Keys == u.accounts.Keys;
      FitsStay(u.accounts, t.accounts, u.log, n);
    }
  }

  lemma UnloggedRefines(s: Ledger, f: Flat, op: Op)
    requires Refines(s, f) && Legal(s, op) && op.PutStateUnlogged? && Tracks(s, op.addr)
    ensures Refines(Apply(s, op), FlatApply(f, op, AdviceOf(s, op)))
  {
    hide Refines, View, BaseState, LogTracked, Touch, Guarded;
    var a, u := op.addr, Touch(s, op.addr);
    ReadRefines(s, f, GetAccount(a));
    RefinesExtra(s, f);
    assert FlatApply(f, GetAccount(a), AdviceOf(s, GetAccount(a))) == f;
    TouchTracked(s, a);
    TouchShape(s, a);
    Unchanged(s, a);
    UnreadKeys(s, a);
    UnreadKeys(u, a);
    UnloggedTracked(u, f, op, AdviceOf(s, op).through);
  }

  lemma WriteRefines(s: Ledger, f: Flat, op: Op)
    requires Refines(s, f) && Legal(s, op) && IsWrite(op)
    ensures Refines(Apply(s, op), FlatApply(f, op, AdviceOf(s, op)))
  {
    hide Refines, FlatApply, AdviceOf, Legal, Apply;
    if !Tracks(s, op.addr) {
      StaleWriteRefines(s, f, op);
    } else if op.PutStateUnlogged? {
      UnloggedRefines(s, f, op);
    } else {
      TrackedWriteRefines(s, f, op);
    }
  }

  lemma NotedRefines(s: Ledger, f: Flat, e: Change, x: Extra)
    requires Refines(s, f) && LogsOk(x)
    requires Dirtied(e).None? && RevertExtra(x, e) == s.extra
    requires LiveEntry(FloorOf(s.base), s.accounts.Keys, x, e)
    requires if e.RefundChange? then e.prevRefund == s.extra.refund else x.refund == s.extra.refund
    ensures Refines(Noted(s, e, x), f.(cur := f.cur.(extra := x)))
  {
    hide Coherent, Keeps, Unwind;
    NotedKeeps(s, e, x);
    NotedCoherent(s, e, x);
    NotedTracked(s, e, x);
    ExtraView(s.base, s.accounts, s.extra, x);
    assert AgreeOn(View(s), View(Noted(s, e, x)), Stale(s));
    KeepsRefines(s, Noted(s, e, x), f);
  }

  lemma RefinesExtra(s: Ledger, f: Flat)
    requires Refines(s, f)
    ensures f.cur == View(s) && f.cur.extra == s.extra && LogsOk(s.extra) && Coherent(s) && LogTracked(s)
    ensures forall a: Address :: a in f.cur.acct
  {
  }

  lemma ExtraRefines(s: Ledger, f: Flat, op: Op)
    requires Refines(s, f) && Legal(s, op)
    requires op.GainRefund? || op.UseRefund? || op.NotePreimage? || op.EmitLog?
    ensures Refines(Apply(s, op), FlatApply(f, op, AdviceOf(s, op)))
  {
    hide Refines, Coherent, FloorOf, View;
    RefinesExtra(s, f);
    var x := s.extra;
    match op
    case GainRefund(gas) => NotedRefines(s, f, RefundChange(x.refund), FlatExtra(x, op));
    case UseRefund(gas) => NotedRefines(s, f, RefundChange(x.refund), FlatExtra(x, op));
    case NotePreimage(h, image) =>
      if h !in x.preimages {
        assert x.preimages[h := image] - {h} == x.preimages;
        NotedRefines(s, f, AddPreimageChange(h), FlatExtra(x, op));
      }
    case EmitLog(entry) =>
      LogUndone(x, entry);
      NotedRefines(s, f, AddLogChange(x.txHash), FlatExtra(x, op));
  }

  lemma LogUndone(x: Extra, entry: Bytes)
    requires LogsOk(x)
    ensures var y := FlatExtra(x, EmitLog(entry)); LogsOk(y) && RevertExtra(y, AddLogChange(x.txHash)) == x
  {
    var y := FlatExtra(x, EmitLog(entry));
    var h := x.txHash;
    if h in x.logs {
      assert y.logs[h][..|y.logs[h]| - 1] == x.logs[h];
      assert y.logs[h := x.logs[h]] == x.logs;
    } else {
      assert y.logs - {h} == x.logs;
    }
  }

  lemma AccessAddressRefines(s: Ledger, f: Flat, a: Address)
    requires Refines(s, f)
    ensures Refines(AddAccessAddress(s, a), FlatApply(f, AccessAddress(a), AdviceOf(s, AccessAddress(a))))
  {
    hide Refines, Coherent, FloorOf, View;
    RefinesExtra(s, f);
    var x := s.extra;
    if a !in x.access {
      assert x.access[a := {}] - {a} == x.access;
      NotedRefines(s, f, AccessAddressChange(a), x.(access := x.access[a := {}]));
    }
  }

  lemma AccessSlotRefines(s: Ledger, f: Flat, a: Address, slot: Bytes)
    requires Refines(s, f)
    ensures Refines(AddAccessSlot(s, a, slot), FlatApply(f, AccessSlot(a, slot), AdviceOf(s, AccessSlot(a, slot))))
  {
    hide Refines, View, Coherent, AddAccessSlot, FlatExtra;
    AccessAddressRefines(s, f, a);
    RefinesExtra(s, f);
    SlotAfterAddress(s, a, slot);
    KnownSlotRefines(AddAccessAddress(s, a), FlatApply(f, AccessAddress(a), AdviceOf(s, AccessAddress(a))), a, slot);
  }

  lemma SlotAfterAddress(s: Ledger, a: Address, slot: Bytes)
    ensures a in AddAccessAddress(s, a).extra.access
    ensures AddAccessSlot(AddAccessAddress(s, a), a, slot) == AddAccessSlot(s, a, slot)
    ensures FlatExtra(FlatExtra(s.extra, AccessAddress(a)), AccessSlot(a, slot)) ==
            FlatExtra(s.extra, AccessSlot(a, slot))
  {
    hide Bump;
    var x := s.extra;
    if a !in x.access {
      var none: set<Bytes> := {};
      assert x.access[a := none][a := none + {slot}] == x.access[a := none + {slot}];
    }
  }

  lemma KnownSlotRefines(s: Ledger, f: Flat, a: Address, slot: Bytes)
    requires Refines(s, f) && a in s.extra.access
    ensures Refines(AddAccessSlot(s, a, slot), FlatApply(f, AccessSlot(a, slot), AdviceOf(s, AccessSlot(a, slot))))
  {
    hide Refines, Coherent, FloorOf, View;
    RefinesExtra(s, f);
    var x := s.extra;
    if slot in x.access[a] {
      assert x.access[a] + {slot} == x.access[a];
      assert x.access[a := x.access[a]] == x.access;
    } else {
      var y := x.(access := x.access[a := x.access[a] + {slot}]);
      assert x.access[a] + {slot} - {slot} == x.access[a];
      assert y.access[a := x.access[a]] == x.access;
      NotedRefines(s, f, AccessSlotChange(a, slot), y);
    }
  }

  lemma SnapshotRefines(s: Ledger, f: Flat)
    requires Refines(s, f)
    ensures Refines(Snapshot(s), FlatApply(f, TakeSnapshot, AdviceOf(s, TakeSnapshot)))
  {
    hide ViewOf, BaseOk, AccountOk, DirtiesOk, FloorOf, LogsOk, EntryFits, Blend, Stale, LogTracked;
    var t := Snapshot(s);
    assert View(t) == View(s);
    BlendSelf(View(s), Stale(s));
    SameTracked(s, t);
    if s.revisions != [] {
      assert Ready(t, s.revisions[0].index);
    } else {
      assert Ready(t, |s.log|);
    }
  }

  lemma RevertRefines(s: Ledger, f: Flat, id: nat)
    requires Refines(s, f) && IndexOf(Ids(s.revisions), id) < |s.revisions|
    ensures Legal(s, Revert(id))
    ensures Refines(Apply(s, Revert(id)), FlatApply(f, Revert(id), AdviceOf(s, Revert(id))))
  {
    hide Coherent, Ready, FloorOf, View, Unwind, Revertible, RevertTo, Blend, Stale, AgreeOn, Full;
    assert Ids(s.revisions) == SavedIds(f.saved);
    var i := IndexOf(Ids(s.revisions), id);
    RevertToSnapshotStep(s, i);
    var r := RevertToSnapshot(s, i);
    assert SavedOk(s, f.saved[i], s.revisions[i]);
    ViewTotal(s);
    ViewTotal(r);
    BlendKeeps(f.saved[i].obs, View(s), Stale(s));
    forall j | 0 <= j < i
      ensures SavedOk(r, f.saved[j], r.revisions[j])
    {
      assert SavedOk(s, f.saved[j], s.revisions[j]);
      RevertToSnapshotUnwind(s, i, j);
      BlendAgree(f.saved[j].obs, View(s), View(r), Stale(s));
    }
  }

  /** With no stale account a revert shows the copy itself. */
  lemma PlainRevert(s: Ledger, f: Flat, id: nat)
    requires Refines(s, f) && Stale(s) == {} && IndexOf(Ids(s.revisions), id) < |s.revisions|
    ensures Legal(s, Revert(id))
    ensures View(Apply(s, Revert(id))) == f.saved[IndexOf(Ids(s.revisions), id)].obs
  {
    hide Coherent, Ready, View, Unwind, FloorOf, Revertible, RevertTo, Blend, Stale;
    var i := IndexOf(Ids(s.revisions), id);
    assert Ids(s.revisions) == SavedIds(f.saved);
    assert SavedOk(s, f.saved[i], s.revisions[i]);
    RevertRefines(s, f, id);
    BlendNone(f.saved[i].obs, f.cur);
  }

  lemma UntrackedView(b: Base, accs: map<Address, Account>, x: Extra)
    ensures ViewOf(b, Untracked(accs), x) == ViewOf(b, accs, x)
  {
    assert ViewOf(b, Untracked(accs), x).acct == ViewOf(b, accs, x).acct;
    assert ViewOf(b, Untracked(accs), x).state == ViewOf(b, accs, x).state;
  }

  lemma FinaliseCoherent(s: Ledger)
    requires Coherent(s)
    ensures Coherent(Finalise(s)) && View(Finalise(s)) == View(s).(extra := s.extra.(refund := 0))
  {
    hide BaseState, BaseInner, BaseCode, HashMatches, ViewOf;
    var t := Finalise(s);
    assert t.extra == s.extra.(refund := 0);
    if s.log != [] {
      assert forall a | a in t.accounts :: AccountOk(s.base, a, s.accounts[a]);
      UntrackedView(s.base, s.accounts, t.extra);
    }
    ExtraView(s.base, s.accounts, s.extra, t.extra);
  }

  /** The end of a transaction that logged anything leaves every live account stale. */
  lemma FinaliseTracked(s: Ledger)
    requires LogTracked(s)
    ensures LogTracked(Finalise(s)) && Stale(Finalise(s)) == if s.log == [] then Stale(s) else s.accounts.Keys
  {
    if s.log == [] {
      SameTracked(s, Finalise(s));
    } else {
      assert forall a: Address | a in s.accounts :: !Untracked(s.accounts)[a].tracked;
    }
  }

  lemma EndTxRefines(s: Ledger, f: Flat)
    requires Refines(s, f)
    ensures Refines(Finalise(s), FlatApply(f, EndTx, AdviceOf(s, EndTx)))
  {
    hide Coherent, Ready, View, LogTracked, Stale, SavedOk, Untracked, LogsOk;
    FinaliseCoherent(s);
    FinaliseTracked(s);
    RefinesExtra(s, f);
  }

  lemma BeginTxRefines(s: Ledger, f: Flat, h: TxHash)
    requires Refines(s, f) && s.revisions == []
    ensures Refines(PrepareTx(s, h), FlatApply(f, BeginTx(h), AdviceOf(s, BeginTx(h))))
  {
    hide ViewOf, BaseOk, AccountOk, DirtiesOk, LogTracked;
    var t := PrepareTx(s, h);
    ExtraView(s.base, s.accounts, s.extra, t.extra);
    SameTracked(s, t);
    RefinesExtra(s, f);
  }

  lemma SameTracked(s: Ledger, t: Ledger)
    requires t.accounts == s.accounts && t.log == s.log
    ensures Stale(t) == Stale(s) && (LogTracked(s) ==> LogTracked(t))
  {
    assert forall a: Address :: Tracks(t, a) <==> Tracks(s, a);
  }

  /** One step of the ledger is one step of the flat machine. */
  lemma StepRefines(s: Ledger, f: Flat, op: Op)
    requires Refines(s, f) && Legal(s, op)
    ensures Refines(Apply(s, op), FlatApply(f, op, AdviceOf(s, op)))
  {
    hide Refines;
    match op
    case TakeSnapshot => SnapshotRefines(s, f);
    case Revert(id) => RevertRefines(s, f, id);
    case EndTx => EndTxRefines(s, f);
    case BeginTx(h) => BeginTxRefines(s, f, h);
    case AccessAddress(a) => AccessAddressRefines(s, f, a);
    case AccessSlot(a, slot) => AccessSlotRefines(s, f, a, slot);
    case _ =>
      if IsRead(op) {
        ReadRefines(s, f, op);
      } else if IsWrite(op) {
        WriteRefines(s, f, op);
      } else {
        ExtraRefines(s, f, op);
      }
  }

  // ---- runs ------------------------------------------------------------------------------

  predicate LegalRun(s: Ledger, ops: seq<Op>)
    decreases |ops|
  {
    ops == [] || (Legal(s, ops[0]) && LegalRun(Apply(s, ops[0]), ops[1..]))
  }

  function Run(s: Ledger, ops: seq<Op>): Ledger
    requires LegalRun(s, ops)
    decreases |ops|
  {
    if ops == [] then s else Run(Apply(s, ops[0]), ops[1..])
  }

  lemma {:induction false} RunConcat(s: Ledger, ops: seq<Op>, more: seq<Op>)
    requires LegalRun(s, ops) && LegalRun(Run(s, ops), more)
    ensures LegalRun(s, ops + more) && Run(s, ops + more) == Run(Run(s, ops), more)
    decreases |ops|
  {
    hide Callable, Apply, KeyKnown, CodeFits;
    var all := ops + more;
    if ops == [] {
      assert all == more;
    } else {
      assert all[0] == ops[0] && all[1..] == ops[1..] + more;
      RunConcat(Apply(s, ops[0]), ops[1..], more);
    }
  }

  /** The flat machine along a run of the ledger. */
  ghost function FlatRun(s: Ledger, f: Flat, ops: seq<Op>): Flat
    requires LegalRun(s, ops)
    decreases |ops|
  {
    if ops == [] then f else FlatRun(Apply(s, ops[0]), FlatApply(f, ops[0], AdviceOf(s, ops[0])), ops[1..])
  }

  /** Over every run the layered ledger shows what the flat machine holds. */
  lemma {:induction false} RunRefines(s: Ledger, f: Flat, ops: seq<Op>)
    requires Refines(s, f) && LegalRun(s, ops)
    ensures Refines(Run(s, ops), FlatRun(s, f, ops))
    decreases |ops|
  {
    hide Refines, FlatApply;
    if ops != [] {
      StepRefines(s, f, ops[0]);
      RunRefines(Apply(s, ops[0]), FlatApply(f, ops[0], AdviceOf(s, ops[0])), ops[1..]);
    }
  }
}
