/** Undoing log entries: on the layered ledger it does what it does on the flat state. */
module LedgerUndo {
  import opened GoBytes
  import opened LedgerModel
  import opened LedgerView
  import opened LedgerSteps

  // ---- entries that belong to no account -----------------------------------------

  lemma ExtraView(b: Base, accs: map<Address, Account>, x: Extra, y: Extra)
    ensures ViewOf(b, accs, y) == ViewOf(b, accs, x).(extra := y)
  {
    assert ViewOf(b, accs, y).acct == ViewOf(b, accs, x).acct;
    assert ViewOf(b, accs, y).state == ViewOf(b, accs, x).state;
  }

  /** The ledger after appending an entry and changing the account-free fields. */
  function Noted(s: Ledger, e: Change, x: Extra): Ledger {
    Append(s, e).(extra := x)
  }

  lemma NotedKeeps(s: Ledger, e: Change, x: Extra)
    requires Dirtied(e).None? && RevertExtra(x, e) == s.extra
    requires LiveEntry(FloorOf(s.base), s.accounts.Keys, x, e)
    ensures Keeps(s, Noted(s, e, x))
  {
    ExtraView(s.base, s.accounts, x, s.extra);
    LoggedKeeps(s, Noted(s, e, x), e);
  }

  lemma NotedCoherent(s: Ledger, e: Change, x: Extra)
    requires Coherent(s) && LogsOk(x) && Dirtied(e).None?
    requires if e.RefundChange? then e.prevRefund == s.extra.refund else x.refund == s.extra.refund
    ensures Coherent(Noted(s, e, x))
  {
    BumpCounts(s.log, s.dirties, e);
    assert (s.log + [e])[..|s.log|] == s.log;
  }

  // ---- one undo step ----------------------------------------------------------------

  lemma {:induction false} LiveMentions(
      fl: Floor, live: set<Address>, x: Extra, log: seq<Change>, n: nat, i: nat)
    requires LiveLog(fl, live, x, log, n) && n <= i < |log| && Dirtied(log[i]).Some?
    ensures Dirtied(log[i]).value in live
    decreases |log|
  {
    var e := log[|log| - 1];
    if i < |log| - 1 {
      LiveMentions(fl, LiveAfter(live, e), RevertExtra(x, e), log[..|log| - 1], n, i);
    }
  }

  lemma RevertedAccountOk(b: Base, a: Address, acc: Account, e: Change)
    requires BaseOk(b) && AccountOk(b, a, acc) && EntryFits(map[a := acc], e)
    requires Dirtied(e) == Some(a) && !e.CreateObject?
    ensures AccountOk(b, a, RevertAccount(acc, e))
    ensures CodeOf(RevertAccount(acc, e), BaseCode(b, a)) ==
            if e.CodeChange? then e.prevCode else CodeOf(acc, BaseCode(b, a))
  {
    AccountCode(b, a, acc);
    match e
    case BalanceChange(_, prev) => BalanceWritten(b, a, acc, prev);
    case NonceChange(_, prev) => NonceWritten(b, a, acc, prev);
    case CodeChange(_, prev) => CodeWritten(b, a, acc, prev);
    case StorageChange(_, k, prev) =>
      StateWritten(b, a, acc, k, prev);
      AccountCode(b, a, WithState(acc, k, prev));
  }

  lemma RevertAccountView(s: Ledger, e: Change)
    requires Coherent(s) && Dirtied(e).Some? && !e.CreateObject?
    requires e.account in s.accounts && EntryFits(s.accounts, e)
    ensures View(RevertChange(s, e)) == Undo(FloorOf(s.base), View(s), e)
  {
    var a := e.account;
    var acc := s.accounts[a];
    RevertedAccountOk(s.base, a, acc, e);
    if e.StorageChange? {
      StateWriteView(s.base, s.accounts, a, e.key, e.prevValue, s.extra);
    } else {
      AcctWriteView(s.base, s.accounts, a, RevertAccount(acc, e), s.extra);
    }
  }

  /** Dropping an account that has nothing stored leaves what lies below. */
  lemma DropView(b: Base, accs: map<Address, Account>, a: Address, x: Extra)
    requires BaseOk(b) && BaseInner(b, a).None?
    ensures ViewOf(b, accs - {a}, x) == Undo(FloorOf(b), ViewOf(b, accs, x), CreateObject(a))
  {
    assert HashMatches(BaseInner(b, a), BaseCode(b, a));
    hide BaseOk, BaseState, BaseCode, BaseInner, HashMatches;
    var v, w := ViewOf(b, accs, x), ViewOf(b, accs - {a}, x);
    assert w.acct == v.acct[a := Basics(0, 0, None)];
    DropState(b, accs, a, x);
  }

  lemma DropState(b: Base, accs: map<Address, Account>, a: Address, x: Extra)
    ensures ViewOf(b, accs - {a}, x).state == UndoState(FloorOf(b), ViewOf(b, accs, x).state, a)
  {
    hide BaseState, BaseCode, BaseInner;
    var w, u := ViewOf(b, accs - {a}, x).state, UndoState(FloorOf(b), ViewOf(b, accs, x).state, a);
    forall p: (Address, Key)
      ensures p in w && p in u && w[p] == u[p]
    {
    }
  }

  lemma DropBase(b: Base, a: Address)
    requires BaseInner(b, a).None?
    ensures b.(cache := b.cache.(inner := b.cache.inner - {a})) == b
  {
    assert b.cache.inner - {a} == b.cache.inner;
  }

  lemma RevertChangeView(s: Ledger, e: Change)
    requires Coherent(s) && EntryLive(s.base, s.accounts.Keys, s.extra, e) && EntryFits(s.accounts, e)
    ensures RevertChange(s, e).base == s.base
    ensures View(RevertChange(s, e)) == Undo(FloorOf(s.base), View(s), e)
  {
    if e.CreateObject? {
      DropBase(s.base, e.account);
      DropView(s.base, s.accounts, e.account, s.extra);
    } else if Dirtied(e).Some? {
      RevertAccountView(s, e);
    } else {
      ExtraView(s.base, s.accounts, s.extra, RevertExtra(s.extra, e));
    }
  }

  lemma RevertLastCoherent(s: Ledger)
    requires Coherent(s) && s.revisions == [] && s.log != []
    requires var e := s.log[|s.log| - 1];
             EntryLive(s.base, s.accounts.Keys, s.extra, e) && EntryFits(s.accounts, e)
    ensures Coherent(RevertLast(s))
  {
    var e := s.log[|s.log| - 1];
    UnbumpCounts(s.log, s.dirties);
    if e.CreateObject? {
      DropBase(s.base, e.account);
    } else if Dirtied(e).Some? {
      RevertedAccountOk(s.base, e.account, s.accounts[e.account], e);
    }
  }

  lemma RevertLastReady(s: Ledger, n: nat)
    requires Ready(s, n) && n < |s.log|
    ensures EntryLive(s.base, s.accounts.Keys, s.extra, s.log[|s.log| - 1])
    ensures EntryFits(s.accounts, s.log[|s.log| - 1])
    ensures RevertLast(s).base == s.base ==> Ready(RevertLast(s), n)
  {
    var e := s.log[|s.log| - 1];
    var r := RevertLast(s);
    var fl := FloorOf(s.base);
    assert r.accounts.Keys == LiveAfter(s.accounts.Keys, e);
    assert r.extra == RevertExtra(s.extra, e);
    forall i | n <= i < |r.log|
      ensures EntryFits(r.accounts, r.log[i])
    {
      assert r.log[i] == s.log[i] && EntryFits(s.accounts, s.log[i]);
      if Dirtied(r.log[i]).Some? {
        LiveMentions(fl, r.accounts.Keys, r.extra, r.log, n, i);
      }
    }
  }

  // ---- unwinding to a snapshot --------------------------------------------------------

  lemma RevertLastStep(s: Ledger, n: nat)
    requires Coherent(s) && s.revisions == [] && Ready(s, n) && n < |s.log|
    ensures EntryLive(s.base, s.accounts.Keys, s.extra, s.log[|s.log| - 1])
    ensures Coherent(RevertLast(s)) && Ready(RevertLast(s), n) && RevertLast(s).base == s.base
    ensures View(RevertLast(s)) == Undo(FloorOf(s.base), View(s), s.log[|s.log| - 1])
  {
    RevertLastReady(s, n);
    RevertChangeView(s, s.log[|s.log| - 1]);
    RevertLastCoherent(s);
  }

  lemma {:induction false} RevertToShape(s: Ledger, n: nat)
    requires Revertible(s, n) && n <= |s.log|
    ensures var r := RevertTo(s, n);
            r.log == s.log[..n] && r.revisions == s.revisions && r.nextRevision == s.nextRevision
    decreases |s.log|
  {
    if |s.log| == n {
      assert s.log[..n] == s.log;
    } else {
      RevertToShape(RevertLast(s), n);
      assert RevertLast(s).log[..n] == s.log[..n];
    }
  }

  /** Reverting to log index `n` never meets an account that is gone and gives
      the flat state unwound to `n`. */
  lemma {:induction false} RevertToStep(s: Ledger, n: nat)
    requires Coherent(s) && s.revisions == [] && Ready(s, n)
    ensures Revertible(s, n)
    ensures Coherent(RevertTo(s, n)) && RevertTo(s, n).base == s.base
    ensures View(RevertTo(s, n)) == Unwind(FloorOf(s.base), View(s), s.log, n)
    decreases |s.log|
  {
    if |s.log| > n {
      RevertLastStep(s, n);
      var r := RevertLast(s);
      RevertToStep(r, n);
      assert Unwind(FloorOf(s.base), View(s), s.log, n) == Unwind(FloorOf(s.base), View(r), r.log, n);
      assert RevertTo(s, n) == RevertTo(r, n);
    }
  }

  /** Every point before `n` stays as reachable as it was. */
  lemma {:induction false} RevertToEarlier(s: Ledger, n: nat, m: nat)
    requires Coherent(s) && s.revisions == [] && Ready(s, m) && m <= n <= |s.log|
    requires Revertible(s, n)
    ensures Ready(RevertTo(s, n), m)
    ensures var r := RevertTo(s, n);
            Unwind(FloorOf(s.base), View(r), r.log, m) == Unwind(FloorOf(s.base), View(s), s.log, m)
    decreases |s.log|
  {
    if |s.log| > n {
      RevertLastStep(s, m);
      RevertToEarlier(RevertLast(s), n, m);
    }
  }

  /** Unwinding does not look at the revisions. */
  lemma {:induction false} RevertToRevisions(s: Ledger, n: nat, revs: seq<Revision>)
    requires Revertible(s, n)
    ensures Revertible(s.(revisions := revs), n)
    ensures RevertTo(s.(revisions := revs), n) == RevertTo(s, n).(revisions := revs)
    decreases |s.log|
  {
    if |s.log| > n {
      var t := s.(revisions := revs);
      assert RevertLast(t) == RevertLast(s).(revisions := revs);
      RevertToRevisions(RevertLast(s), n, revs);
    }
  }

  /** Undoing an entry keeps the stale accounts, and the log clear of them. */
  lemma RevertLastTracked(s: Ledger)
    requires LogTracked(s) && s.log != [] && EntryLive(s.base, s.accounts.Keys, s.extra, s.log[|s.log| - 1])
    ensures LogTracked(RevertLast(s)) && Stale(RevertLast(s)) == Stale(s)
  {
    hide WithBalance, WithNonce, WithCode, WithState, BaseInner, RevertExtra, Unbump;
    var e, r := s.log[|s.log| - 1], RevertLast(s);
    if Dirtied(e).Some? {
      assert Tracks(s, Dirtied(e).value);
      RevertAccountTracked(s, e);
    }
    forall i | 0 <= i < |r.log| && Dirtied(r.log[i]).Some?
      ensures Tracks(r, Dirtied(r.log[i]).value)
    {
      assert r.log[i] == s.log[i] && Tracks(s, Dirtied(s.log[i]).value);
    }
  }

  lemma RevertAccountTracked(s: Ledger, e: Change)
    requires Dirtied(e).Some?
    ensures e.account in s.accounts ==> RevertAccount(s.accounts[e.account], e).tracked == s.accounts[e.account].tracked
  {
  }

  lemma {:induction false} RevertToTracked(s: Ledger, n: nat)
    requires LogTracked(s) && Revertible(s, n)
    ensures LogTracked(RevertTo(s, n)) && Stale(RevertTo(s, n)) == Stale(s)
    decreases |s.log|
  {
    hide LogTracked, Stale, EntryLive;
    if |s.log| > n {
      RevertLastTracked(s);
      RevertToTracked(RevertLast(s), n);
    }
  }

  lemma ReadyUpTo(s: Ledger, m: nat, n: nat)
    requires Ready(s, m) && m <= n
    ensures Ready(s, n)
  {
    LiveLogUpTo(FloorOf(s.base), s.accounts.Keys, s.extra, s.log, m, n);
  }

  lemma {:induction false} LiveLogUpTo(fl: Floor, live: set<Address>, x: Extra, log: seq<Change>, m: nat, n: nat)
    requires LiveLog(fl, live, x, log, m) && m <= n
    ensures LiveLog(fl, live, x, log, n)
    decreases |log|
  {
    if |log| > n {
      var e := log[|log| - 1];
      LiveLogUpTo(fl, LiveAfter(live, e), RevertExtra(x, e), log[..|log| - 1], m, n);
    }
  }

  /** `RevertToSnapshot` truncates the revisions and unwinds. */
  lemma RevertToSnapshotUnfold(s: Ledger, i: nat)
    requires Valid(s) && i < |s.revisions|
    ensures var q, n := s.(revisions := []), s.revisions[i].index;
            && Coherent(q) && Ready(q, n) && Revertible(q, n) && Revertible(s, n)
            && RevertToSnapshot(s, i) == RevertTo(q, n).(revisions := s.revisions[..i])
  {
    var q, n := s.(revisions := []), s.revisions[i].index;
    ReadyUpTo(s, s.revisions[0].index, n);
    assert Ready(q, n);
    RevertToStep(q, n);
    RevertToRevisions(q, n, s.revisions);
    assert q.(revisions := s.revisions) == s;
  }

  /** Reverting to revision `i` always goes through, shows the flat state unwound
      to it, and keeps the earlier revisions. */
  lemma RevertToSnapshotStep(s: Ledger, i: nat)
    requires Valid(s) && i < |s.revisions|
    ensures Revertible(s, s.revisions[i].index)
    ensures var r := RevertToSnapshot(s, i);
            && Valid(r) && r.revisions == s.revisions[..i] && r.nextRevision == s.nextRevision && r.base == s.base
            && Stale(r) == Stale(s)
            && View(r) == Unwind(FloorOf(s.base), View(s), s.log, s.revisions[i].index)
  {
    hide LogTracked, Stale;
    var q, n := s.(revisions := []), s.revisions[i].index;
    RevertToSnapshotUnfold(s, i);
    RevertToStep(q, n);
    RevertToShape(q, n);
    TrackedRevisions(s, []);
    RevertToTracked(q, n);
    TrackedRevisions(RevertTo(q, n), s.revisions[..i]);
    if i > 0 {
      assert Ready(q, s.revisions[0].index);
      RevertToEarlier(q, n, s.revisions[0].index);
    }
    FewerRevisions(s.revisions, s.nextRevision, |s.log|, i);
    WithRevisions(RevertTo(q, n), s.revisions[..i]);
  }

  lemma FewerRevisions(revs: seq<Revision>, next: nat, len: nat, i: nat)
    requires RevisionsOk(revs, next, len) && i < |revs|
    ensures RevisionsOk(revs[..i], next, revs[i].index)
  {
  }

  lemma TrackedRevisions(t: Ledger, revs: seq<Revision>)
    ensures LogTracked(t.(revisions := revs)) <==> LogTracked(t)
    ensures Stale(t.(revisions := revs)) == Stale(t)
  {
    assert forall a: Address :: Tracks(t.(revisions := revs), a) <==> Tracks(t, a);
  }

  lemma WithRevisions(t: Ledger, revs: seq<Revision>)
    requires Coherent(t) && LogTracked(t) && RevisionsOk(revs, t.nextRevision, |t.log|)
    requires revs != [] ==> Ready(t, revs[0].index)
    ensures Valid(t.(revisions := revs)) && View(t.(revisions := revs)) == View(t)
  {
    TrackedRevisions(t, revs);
    assert revs != [] ==> Ready(t.(revisions := revs), revs[0].index);
  }

  /** ... and unwinding further from there is unwinding from before. */
  lemma RevertToSnapshotUnwind(s: Ledger, i: nat, j: nat)
    requires Valid(s) && j < i < |s.revisions|
    ensures Revertible(s, s.revisions[i].index)
    ensures var r := RevertToSnapshot(s, i);
            Unwind(FloorOf(s.base), View(r), r.log, s.revisions[j].index) ==
            Unwind(FloorOf(s.base), View(s), s.log, s.revisions[j].index)
  {
    var q, n, m := s.(revisions := []), s.revisions[i].index, s.revisions[j].index;
    RevertToSnapshotUnfold(s, i);
    ReadyUpTo(s, s.revisions[0].index, m);
    assert Ready(q, m);
    RevertToEarlier(q, n, m);
  }
}
