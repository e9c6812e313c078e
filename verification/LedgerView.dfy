/** What a caller of the state ledger can observe, and the invariant that ties
    the layers (dirty overlay, origin overlay, cache, tables) together. */
module LedgerView {
  import opened GoBytes
  import opened LedgerModel

  datatype Basics = Basics(balance: int, nonce: nat, code: Val)

  /** The flat state: one value per address and per (address, key). */
  datatype Obs = Obs(acct: imap<Address, Basics>, state: imap<(Address, Key), Val>, extra: Extra)

  /** What cache and tables together hold. */
  datatype Floor = Floor(
    inner: imap<Address, Option<Inner>>, code: imap<Address, Val>, state: imap<(Address, Key), Val>)

  ghost function FloorOf(b: Base): Floor {
    Floor(imap a: Address :: BaseInner(b, a), imap a: Address :: BaseCode(b, a),
          imap p: (Address, Key) :: BaseState(b, p.0, p.1))
  }

  function InnerAt(b: Base, accs: map<Address, Account>, a: Address): Option<Inner> {
    if a in accs then Current(accs[a]) else BaseInner(b, a)
  }

  function StateAt(b: Base, accs: map<Address, Account>, a: Address, k: Key): Val {
    if a in accs then StateOf(accs[a], BaseState(b, a, k), k) else BaseState(b, a, k)
  }

  function CodeAt(b: Base, accs: map<Address, Account>, a: Address): Val {
    if a in accs then CodeOf(accs[a], BaseCode(b, a))
    else if HashOf(BaseInner(b, a)).None? then None
    else BaseCode(b, a)
  }

  function BasicsAt(b: Base, accs: map<Address, Account>, a: Address): Basics {
    var inner := InnerAt(b, accs, a);
    Basics(BalanceOf(inner), NonceOf(inner), CodeAt(b, accs, a))
  }

  ghost function ViewOf(b: Base, accs: map<Address, Account>, x: Extra): Obs {
    Obs(imap a: Address :: BasicsAt(b, accs, a), imap p: (Address, Key) :: StateAt(b, accs, p.0, p.1), x)
  }

  ghost function View(s: Ledger): Obs {
    ViewOf(s.base, s.accounts, s.extra)
  }

  // ---- undo on the flat state ------------------------------------------------

  function UndoBasics(b: Basics, e: Change): Basics {
    match e
    case CreateObject(_) => Basics(0, 0, None)
    case BalanceChange(_, prev) => b.(balance := prev)
    case NonceChange(_, prev) => b.(nonce := prev)
    case CodeChange(_, prev) => b.(code := prev)
    case _ => b
  }

  ghost function UndoState(fl: Floor, o: imap<(Address, Key), Val>, a: Address): imap<(Address, Key), Val> {
    imap p: (Address, Key) | p in o :: if p.0 == a && p in fl.state then fl.state[p] else o[p]
  }

  ghost function Undo(fl: Floor, o: Obs, e: Change): Obs {
    match e
    case CreateObject(a) =>
      if a in o.acct then o.(acct := o.acct[a := UndoBasics(o.acct[a], e)], state := UndoState(fl, o.state, a)) else o
    case StorageChange(a, k, prev) => o.(state := o.state[(a, k) := prev])
    case _ =>
      if Dirtied(e).None? then o.(extra := RevertExtra(o.extra, e))
      else if e.account in o.acct then o.(acct := o.acct[e.account := UndoBasics(o.acct[e.account], e)])
      else o
  }

  /** Undo the entries from `n` on, newest first. */
  ghost function Unwind(fl: Floor, o: Obs, log: seq<Change>, n: nat): Obs
    decreases |log|
  {
    if |log| <= n then o else Unwind(fl, Undo(fl, o, log[|log| - 1]), log[..|log| - 1], n)
  }

  ghost predicate LiveEntry(fl: Floor, live: set<Address>, x: Extra, e: Change) {
    match e
    case CreateObject(a) => a in live && a in fl.inner && fl.inner[a].None?
    case AddLogChange(h) => LogsOf(x, h) != [] && x.logSize > 0
    case AccessSlotChange(a, slot) => a in x.access && slot in x.access[a]
    case _ => Dirtied(e).Some? ==> Dirtied(e).value in live
  }

  function LiveAfter(live: set<Address>, e: Change): set<Address> {
    if e.CreateObject? then live - {e.account} else live
  }

  /** Undoing the entries from `n` on never looks up an account that is gone. */
  ghost predicate LiveLog(fl: Floor, live: set<Address>, x: Extra, log: seq<Change>, n: nat)
    decreases |log|
  {
    |log| > n ==>
      var e := log[|log| - 1];
      LiveEntry(fl, live, x, e) && LiveLog(fl, LiveAfter(live, e), RevertExtra(x, e), log[..|log| - 1], n)
  }

  // ---- the invariant -----------------------------------------------------------

  predicate HashMatches(o: Option<Inner>, code: Val) {
    match code
    case Some(c) => c != [] && HashOf(o) == Some(Keccak(c))
    case None => HashOf(o).None? || HashOf(o) == Some(Keccak([]))
  }

  ghost predicate BaseOk(b: Base) {
    && (forall a: Address :: a !in b.cache.inner ==> BaseCode(b, a) == Lookup(b.tables.codes, a))
    && (forall a: Address :: HashMatches(BaseInner(b, a), BaseCode(b, a)))
    && (forall a: Address, k: Key :: Proper(BaseState(b, a, k)))
  }

  ghost predicate AccountOk(b: Base, a: Address, acc: Account) {
    && acc.origin == BaseInner(b, a)
    && acc.originCode == BaseCode(b, a)
    && (acc.originCode.Some? ==> acc.dirtyCode.Some?)
    && HashMatches(Current(acc), acc.dirtyCode)
    && (forall k | k in acc.originState :: acc.originState[k] == BaseState(b, a, k))
    && (forall k | k in acc.dirtyState ::
          Proper(acc.dirtyState[k]) && (k in acc.originState || BaseState(b, a, k).None?))
  }

  /** How many entries of a log concern an account. */
  function Entries(log: seq<Change>, a: Address): nat {
    if log == [] then 0
    else Entries(log[..|log| - 1], a) + if Dirtied(log[|log| - 1]) == Some(a) then 1 else 0
  }

  /** `dirties` counts the live log entries per address. */
  ghost predicate DirtiesOk(log: seq<Change>, d: map<Address, nat>) {
    forall a: Address :: if a in d then d[a] == Entries(log, a) > 0 else Entries(log, a) == 0
  }

  /** Strictly increasing ids, non-decreasing log indices. */
  predicate RevisionsOk(revs: seq<Revision>, next: nat, len: nat) {
    && (forall i | 0 <= i < |revs| :: revs[i].id < next && revs[i].index <= len)
    && (forall i, j | 0 <= i < j < |revs| :: revs[i].id < revs[j].id && revs[i].index <= revs[j].index)
  }

  predicate LogsOk(x: Extra) {
    forall h | h in x.logs :: x.logs[h] != []
  }

  /** The refund counter that was in force when the log was empty. */
  function RefundAtStart(log: seq<Change>, refund: nat): nat {
    if log == [] then refund
    else
      var e := log[|log| - 1];
      RefundAtStart(log[..|log| - 1], if e.RefundChange? then e.prevRefund else refund)
  }

  ghost predicate Coherent(s: Ledger) {
    && BaseOk(s.base)
    && (forall a | a in s.accounts :: AccountOk(s.base, a, s.accounts[a]))
    && DirtiesOk(s.log, s.dirties)
    && RevisionsOk(s.revisions, s.nextRevision, |s.log|)
    && LogsOk(s.extra)
    && RefundAtStart(s.log, s.extra.refund) == 0
  }

  /** Undoing the entry leaves its account sound. */
  predicate EntryFits(accs: map<Address, Account>, e: Change) {
    match e
    case StorageChange(a, k, prev) => a in accs && k in accs[a].dirtyState && Proper(prev)
    case CodeChange(a, prev) => a in accs && Proper(prev) && (accs[a].originCode.Some? ==> prev.Some?)
    case _ => true
  }

  /** The log can be unwound down to entry `n`. */
  ghost predicate Ready(s: Ledger, n: nat) {
    && LiveLog(FloorOf(s.base), s.accounts.Keys, s.extra, s.log, n)
    && (forall i | n <= i < |s.log| :: EntryFits(s.accounts, s.log[i]))
  }

  /** The account, if live, logs to the ledger's current log. */
  predicate Tracks(s: Ledger, a: Address) {
    a in s.accounts ==> s.accounts[a].tracked
  }

  /** The live accounts that log to an older log. */
  function Stale(s: Ledger): set<Address> {
    set a | a in s.accounts && !s.accounts[a].tracked
  }

  /** The current log speaks of no stale account. */
  predicate LogTracked(s: Ledger) {
    forall i | 0 <= i < |s.log| && Dirtied(s.log[i]).Some? :: Tracks(s, Dirtied(s.log[i]).value)
  }

  ghost predicate Valid(s: Ledger) {
    Coherent(s) && LogTracked(s) && (s.revisions != [] ==> Ready(s, s.revisions[0].index))
  }
}
