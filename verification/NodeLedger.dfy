/** The whole state ledger over many blocks: transactions, flushes, commits, cache
    evictions, rollbacks and crashes, in any order the executor allows. */
module NodeLedger {
  import opened GoBytes
  import opened LedgerModel
  import opened LedgerView
  import opened LedgerSteps
  import opened LedgerUndo
  import opened FlatLedger
  import opened BlockJournal
  import opened BlockLedger
  import opened StateStore
  import Recovery

  /** A flushed block that is not committed yet. */
  datatype Pending = Pending(accs: map<Address, Account>, record: BlockRecord)

  datatype Node = Node(led: Ledger, store: Store, pending: Option<Pending>)

  datatype NodeOp =
    | Do(op: Op)
    | FlushBlock(entries: seq<JournalEntry>, hash: Bytes)
    | CommitBlock
    | EvictInner(addr: Address)
    | EvictState(addr: Address, key: Key)
    | EvictStates(addr: Address)
    | EvictCode(addr: Address)
    | RollbackTo(height: nat)
    | Crash(point: CrashPoint, height: nat)

  /** Where a crash strikes: between batches, or after some batches of a commit or of a
      rollback. */
  datatype CrashPoint = Idle | Committing(batches: nat) | RollingBack(to: nat, batches: nat)

  /** What a crash leaves on disk. */
  function CrashedDisk(n: Node, point: CrashPoint): Disk {
    match point
    case Idle => n.store.disk
    case Committing(batches) =>
      if n.pending.None? then n.store.disk
      else Recovery.CommitPrefix(n.store, n.pending.value.accs, n.pending.value.record, batches)
    case RollingBack(to, batches) =>
      if InWindow(n.store, to) then Recovery.RollbackPrefix(n.store.disk, to, batches) else n.store.disk
  }

  /** No eviction between a flush and its commit, no snapshot across a flush.  After a
      crash the node opens its disk and rolls back to the height of the chain. */
  ghost predicate NodeLegal(n: Node, op: NodeOp) {
    match op
    case Do(o) => Legal(n.led, o)
    case FlushBlock(entries, _) =>
      n.pending.None? && n.led.revisions == [] && JournalsFor(Flushed(n.led), entries)
    case CommitBlock => n.pending.Some?
    case RollbackTo(_) => n.pending.None? && n.led.revisions == []
    case Crash(point, height) =>
      && InWindow(Open(CrashedDisk(n, point)), height)
      && (point.Committing? ==> n.pending.Some?)
      && (point.RollingBack? ==> n.pending.None? && n.led.revisions == [])
    case _ => n.pending.None?
  }

  function WithCache(s: Ledger, c: Cache): Ledger {
    s.(base := s.base.(cache := c))
  }

  function Evicted(c: Cache, op: NodeOp): Cache {
    match op
    case EvictInner(a) => c.(inner := c.inner - {a})
    case EvictState(a, k) => if a in c.states then c.(states := c.states[a := c.states[a] - {k}]) else c
    case EvictStates(a) => c.(states := c.states - {a})
    case EvictCode(a) => c.(codes := c.codes - {a})
    case _ => c
  }

  /** `RollbackState` empties the live accounts and the cache, unless it is already there. */
  function RolledBackLedger(s: Ledger, t: Tables): Ledger {
    s.(accounts := map[], base := Base(EMPTY_CACHE, t))
  }

  const NO_EXTRA := Extra(0, map[], map[], 0, [], map[])

  /** A ledger that was just opened. */
  function OpenedLedger(t: Tables): Ledger {
    Ledger(Base(EMPTY_CACHE, t), map[], [], map[], [], 0, NO_EXTRA)
  }

  ghost function NodeApply(n: Node, op: NodeOp): Node
    requires NodeLegal(n, op)
  {
    match op
    case Do(o) => n.(led := Apply(n.led, o))
    case FlushBlock(entries, hash) =>
      n.(led := Flush(n.led), pending := Some(Pending(Flushed(n.led), BlockRecord(entries, hash))))
    case CommitBlock =>
      var p := n.pending.value;
      Node(n.led.(base := n.led.base.(tables := CommitTables(n.led.base.tables, p.accs))),
           Commit(n.store, n.store.max + 1, p.accs, p.record), None)
    case RollbackTo(h) =>
      var (s, res) := Rollback(n.store, h);
      var moved := res == RolledBack && h < n.store.max;
      n.(store := s, led := if moved then RolledBackLedger(n.led, s.disk.tables) else n.led)
    case Crash(point, height) =>
      var s := Rollback(Open(CrashedDisk(n, point)), height).0;
      Node(OpenedLedger(s.disk.tables), s, None)
    case _ => n.(led := WithCache(n.led, Evicted(n.led.base.cache, op)))
  }

  // ---- the flat machine with history -------------------------------------------------------------

  /** The flat ledger, and what it showed when each block was flushed. */
  datatype FlatNode = FlatNode(flat: Flat, pending: Option<Obs>, hist: seq<Obs>)

  /** What the flat machine has to be told: what the ledger knows about stale accounts, and
      whether the journal window reaches the height of a rollback. */
  datatype Hint = Hint(advice: Advice, reaches: bool)

  ghost function HintOf(n: Node, op: NodeOp): Hint {
    Hint(if op.Do? then AdviceOf(n.led, op.op) else Advice({}, []),
         op.RollbackTo? ==> InWindow(n.store, op.height))
  }

  /** The history that a crash leaves: with the pending block once its batch is written. */
  ghost function CrashedHistory(f: FlatNode, point: CrashPoint): seq<Obs> {
    if point.Committing? && point.batches > 0 && f.pending.Some? then f.hist + [f.pending.value] else f.hist
  }

  ghost function FlatNodeApply(f: FlatNode, op: NodeOp, hint: Hint): FlatNode {
    match op
    case Do(o) => f.(flat := FlatApply(f.flat, o, hint.advice))
    case FlushBlock(_, _) => f.(pending := Some(f.flat.cur))
    case CommitBlock => if f.pending.Some? then f.(pending := None, hist := f.hist + [f.pending.value]) else f
    case RollbackTo(h) =>
      if hint.reaches && h + 1 < |f.hist|
      then f.(flat := f.flat.(cur := f.hist[h].(extra := f.flat.cur.extra)), hist := f.hist[..h + 1])
      else f
    case Crash(point, height) =>
      var hist := CrashedHistory(f, point);
      if height < |hist|
      then FlatNode(Flat(hist[height].(extra := NO_EXTRA), [], 0), None, hist[..height + 1])
      else f
    case _ => f
  }

  // ---- the refinement ---------------------------------------------------------------------------------

  /** The tables alone show `o`. */
  ghost predicate Shows(t: Tables, o: Obs) {
    TablesOk(t) && ViewOf(Base(EMPTY_CACHE, t), map[], o.extra) == o
  }

  ghost predicate PendingOk(b: Base, p: Pending, o: Obs) {
    var u := CommitTables(b.tables, p.accs);
    && OriginsMatch(b.tables, p.accs) && JournalsFor(p.accs, p.record.entries)
    && CacheFits(b.cache, u) && Covers(b.cache, b.tables, u) && Shows(u, o)
  }

  ghost predicate LayersOk(b: Base, pending: Option<Pending>, o: Option<Obs>) {
    match pending
    case None => CacheFits(b.cache, b.tables)
    case Some(p) => o.Some? && PendingOk(b, p, o.value)
  }

  ghost predicate HistoryOk(hist: seq<Tables>, shown: seq<Obs>) {
    |hist| == |shown| && forall i | 0 <= i < |hist| :: Shows(hist[i], shown[i])
  }

  ghost predicate NodeRefines(n: Node, f: FlatNode, hist: seq<Tables>) {
    && Refines(n.led, f.flat) && n.led.base.tables == n.store.disk.tables
    && StoreOk(n.store, hist) && HistoryOk(hist, f.hist)
    && LayersOk(n.led.base, n.pending, f.pending)
  }

  /** Replacing cache and tables by others that show the same. */
  lemma RebaseAccounts(s: Ledger, b: Base)
    requires Coherent(s) && BaseOk(b) && FloorOf(b) == FloorOf(s.base)
    ensures Coherent(s.(base := b)) && View(s.(base := b)) == View(s)
  {
    forall a: Address
      ensures BaseInner(b, a) == BaseInner(s.base, a) && BaseCode(b, a) == BaseCode(s.base, a)
    {
      assert FloorOf(b).inner[a] == FloorOf(s.base).inner[a];
      assert FloorOf(b).code[a] == FloorOf(s.base).code[a];
    }
    forall a: Address, k: Key
      ensures BaseState(b, a, k) == BaseState(s.base, a, k)
    {
      assert FloorOf(b).state[(a, k)] == FloorOf(s.base).state[(a, k)];
    }
    RebaseView(s, b);
    forall a | a in s.accounts
      ensures AccountOk(b, a, s.accounts[a])
    {
      assert AccountOk(s.base, a, s.accounts[a]);
    }
  }

  lemma RebaseView(s: Ledger, b: Base)
    requires forall a: Address :: BaseInner(b, a) == BaseInner(s.base, a) && BaseCode(b, a) == BaseCode(s.base, a)
    requires forall a: Address, k: Key :: BaseState(b, a, k) == BaseState(s.base, a, k)
    ensures View(s.(base := b)) == View(s)
  {
    assert View(s.(base := b)).acct == View(s).acct;
    assert View(s.(base := b)).state == View(s).state;
  }

  lemma RebaseRefines(s: Ledger, b: Base, f: Flat)
    requires Refines(s, f) && BaseOk(b) && FloorOf(b) == FloorOf(s.base)
    ensures Refines(s.(base := b), f)
  {
    hide Coherent, BaseOk, FloorOf, View, Unwind, LiveLog, LogTracked, Stale, Blend;
    RebaseAccounts(s, b);
    var t := s.(base := b);
    SameTracked(s, t);
    assert forall i | 0 <= i < |f.saved| :: SavedOk(s, f.saved[i], s.revisions[i]);
    assert s.revisions != [] ==> Ready(t, s.revisions[0].index);
  }

  lemma ApplyBase(s: Ledger, op: Op)
    requires Valid(s) && Legal(s, op)
    ensures Apply(s, op).base == s.base
  {
    hide Coherent, Ready, LoadAccount, View, Unwind, LoadState, LoadCode, BaseState, BaseCode;
    if op.Revert? {
      RevertToSnapshotStep(s, IndexOf(Ids(s.revisions), op.id));
    }
  }

  lemma DoStep(n: Node, f: FlatNode, hist: seq<Tables>, op: Op)
    requires NodeRefines(n, f, hist) && Legal(n.led, op)
    ensures NodeRefines(NodeApply(n, Do(op)), FlatNodeApply(f, Do(op), HintOf(n, Do(op))), hist)
  {
    hide Refines, StoreOk, HistoryOk, LayersOk, Legal, Apply, FlatApply;
    assert Valid(n.led) by { RefinesValid(n.led, f.flat); }
    StepRefines(n.led, f.flat, op);
    ApplyBase(n.led, op);
  }

  lemma RefinesValid(s: Ledger, f: Flat)
    requires Refines(s, f)
    ensures Valid(s) && Coherent(s) && f.cur == View(s) && |f.saved| == |s.revisions|
  {
  }

  lemma FlushCoherent(s: Ledger)
    requires Settled(s)
    ensures Coherent(Flush(s))
  {
    hide CommitTables, Flushed, CacheAdd, CacheFits, Covers, BaseOk;
    var u := CommitTables(s.base.tables, Flushed(s));
    FlushFits(s);
    CommittedTablesOk(s);
    BaseOkOfCovered(Flush(s).base.cache, s.base.tables, u);
  }

  lemma FlushStep(n: Node, f: FlatNode, hist: seq<Tables>, op: NodeOp)
    requires NodeRefines(n, f, hist) && NodeLegal(n, op) && op.FlushBlock?
    ensures NodeRefines(NodeApply(n, op), FlatNodeApply(f, op, HintOf(n, op)), hist)
  {
    hide StoreOk, HistoryOk, Coherent, View, JournalsFor, OriginsMatch, CacheFits, Covers, CommitTables,
      Flushed, CacheAdd, TablesOk;
    var s := n.led;
    RefinesValid(s, f.flat);
    assert Settled(s);
    FlushCoherent(s);
    FlushView(s);
    FlushFits(s);
    FlushOrigins(s);
    CommittedTablesOk(s);
    ViewExtra(s);
  }

  ghost predicate CommitRefines(n: Node, f: FlatNode, hist: seq<Tables>)
    requires n.pending.Some?
  {
    var hist' := hist + [CommitTables(n.led.base.tables, n.pending.value.accs)];
    NodeRefines(NodeApply(n, CommitBlock), FlatNodeApply(f, CommitBlock, HintOf(n, CommitBlock)), hist')
  }

  lemma CommitStep(n: Node, f: FlatNode, hist: seq<Tables>)
    requires n.pending.Some? && NodeRefines(n, f, hist)
    ensures CommitRefines(n, f, hist)
  {
    hide Refines, BaseOk, CacheFits, Covers, CommitTables, FloorOf, View, ViewOf, JournalsFor, OriginsMatch, DiskOk;
    var b, p := n.led.base, n.pending.value;
    var u := CommitTables(b.tables, p.accs);
    CommitOk(n.store, hist, p.accs, p.record);
    FloorOfCovered(b.cache, b.tables, u);
    CoversSelf(b.cache, u);
    FloorOfCovered(b.cache, u, u);
    BaseOkOfCovered(b.cache, u, u);
    RebaseRefines(n.led, b.(tables := u), f.flat);
    CommitStored(n.store, p.accs, p.record);
  }

  lemma CommitStored(s: Store, accs: map<Address, Account>, r: BlockRecord)
    ensures Commit(s, s.max + 1, accs, r).disk.tables == CommitTables(s.disk.tables, accs)
  {
  }

  lemma CoversSelf(c: Cache, t: Tables)
    ensures Covers(c, t, t)
  {
  }

  lemma EvictFits(c: Cache, t: Tables, op: NodeOp)
    requires CacheFits(c, t)
    ensures CacheFits(Evicted(c, op), t)
  {
  }

  /** An eviction takes out the entries it names and no others. */
  lemma EvictedExactly(c: Cache, op: NodeOp, a: Address, k: Key)
    requires op.EvictInner? || op.EvictState? || op.EvictStates? || op.EvictCode?
    ensures var d := Evicted(c, op);
            && Lookup(d.inner, a) == (if op == EvictInner(a) then None else Lookup(c.inner, a))
            && Lookup(d.codes, a) == (if op == EvictCode(a) then None else Lookup(c.codes, a))
            && (a in d.states && k in d.states[a] <==>
                a in c.states && k in c.states[a] && op != EvictState(a, k) && op != EvictStates(a))
            && (a in d.states && k in d.states[a] ==> d.states[a][k] == c.states[a][k])
  {
  }

  lemma SettledTables(c: Cache, t: Tables)
    requires CacheFits(c, t) && BaseOk(Base(c, t))
    ensures TablesOk(t)
  {
    var b, e := Base(c, t), Base(EMPTY_CACHE, t);
    forall a: Address
      ensures HashMatches(BaseInner(e, a), BaseCode(e, a))
    {
      SettledBase(b, a);
      assert HashMatches(BaseInner(b, a), BaseCode(b, a));
    }
    forall a: Address, k: Key
      ensures Proper(BaseState(e, a, k))
    {
      SettledBase(b, a);
      assert Proper(BaseState(b, a, k));
    }
  }

  lemma EvictStep(n: Node, f: FlatNode, hist: seq<Tables>, op: NodeOp)
    requires NodeRefines(n, f, hist) && n.pending.None?
    requires op.EvictInner? || op.EvictState? || op.EvictStates? || op.EvictCode?
    ensures NodeRefines(NodeApply(n, op), FlatNodeApply(f, op, HintOf(n, op)), hist)
  {
    hide Refines, BaseOk, CacheFits, Covers, FloorOf, StoreOk, HistoryOk, Evicted, TablesOk;
    var b := n.led.base;
    var c := Evicted(b.cache, op);
    RefinesValid(n.led, f.flat);
    SettledTables(b.cache, b.tables);
    EvictFits(b.cache, b.tables, op);
    CoversSelf(b.cache, b.tables);
    CoversSelf(c, b.tables);
    FloorOfCovered(b.cache, b.tables, b.tables);
    FloorOfCovered(c, b.tables, b.tables);
    BaseOkOfCovered(c, b.tables, b.tables);
    RebaseRefines(n.led, b.(cache := c), f.flat);
  }

  lemma RolledBackRefines(s: Ledger, f: Flat, t: Tables, o: Obs)
    requires Refines(s, f) && s.revisions == [] && Shows(t, o)
    ensures Refines(RolledBackLedger(s, t), f.(cur := o.(extra := f.cur.extra)))
  {
    hide Unwind;
    ExtraView(Base(EMPTY_CACHE, t), map[], o.extra, s.extra);
    assert forall a: Address :: Tracks(RolledBackLedger(s, t), a);
  }

  ghost predicate RollbackRefines(n: Node, f: FlatNode, hist: seq<Tables>, h: nat)
    requires n.pending.None? && n.led.revisions == []
  {
    var op := RollbackTo(h);
    NodeRefines(NodeApply(n, op), FlatNodeApply(f, op, HintOf(n, op)),
                if InWindow(n.store, h) && h < |hist| then hist[..h + 1] else hist)
  }

  lemma RollbackStep(n: Node, f: FlatNode, hist: seq<Tables>, h: nat)
    requires n.pending.None? && n.led.revisions == [] && NodeRefines(n, f, hist)
    ensures RollbackRefines(n, f, hist, h)
  {
    hide Refines, Shows, Rollback, RolledBackLedger, DiskOk;
    RollbackRestores(n.store, hist, h);
    StoreHistory(n.store, hist);
    if InWindow(n.store, h) {
      if h < n.store.max {
        RolledBackRefines(n.led, f.flat, hist[h], f.hist[h]);
        RolledBackBase(n.led, hist[h]);
      } else {
        assert hist[..h + 1] == hist;
        RollbackHere(n.store, h);
      }
    }
  }

  lemma OpenedRefines(t: Tables, o: Obs)
    requires Shows(t, o)
    ensures Refines(OpenedLedger(t), Flat(o.(extra := NO_EXTRA), [], 0))
  {
    ExtraView(Base(EMPTY_CACHE, t), map[], o.extra, NO_EXTRA);
  }

  /** The tables of every block that a crash leaves on disk. */
  ghost function CrashedTables(n: Node, hist: seq<Tables>, point: CrashPoint): seq<Tables> {
    match point
    case Idle => hist
    case Committing(batches) =>
      if batches > 0 && n.pending.Some?
      then hist + [CommitTables(n.store.disk.tables, n.pending.value.accs)] else hist
    case RollingBack(_, _) =>
      var d := CrashedDisk(n, point);
      if d.storedMax < |hist| then hist[..d.storedMax + 1] else hist
  }

  lemma CrashedDiskOk(n: Node, f: FlatNode, hist: seq<Tables>, point: CrashPoint)
    requires NodeRefines(n, f, hist)
    ensures DiskOk(CrashedDisk(n, point), CrashedTables(n, hist, point))
  {
    hide DiskOk, Refines, HistoryOk, CommitTables, OriginsMatch, JournalsFor, CacheFits, Covers, Shows;
    Recovery.HistoryLength(n.store, hist);
    match point
    case Idle =>
    case Committing(batches) =>
      if n.pending.Some? {
        Recovery.CommitPrefixOk(n.store, hist, n.pending.value.accs, n.pending.value.record, batches);
      }
    case RollingBack(to, batches) =>
      if InWindow(n.store, to) {
        Recovery.RollbackPrefixOk(n.store.disk, hist, to, batches);
      } else {
        assert hist[..|hist|] == hist;
      }
  }

  /** Whatever the crash leaves within the height is what the flat history holds. */
  lemma CrashedHistoryOk(n: Node, f: FlatNode, hist: seq<Tables>, point: CrashPoint, height: nat)
    requires NodeRefines(n, f, hist) && height < |CrashedTables(n, hist, point)|
    requires point.Committing? ==> n.pending.Some?
    ensures height < |CrashedHistory(f, point)|
    ensures HistoryOk(CrashedTables(n, hist, point)[..height + 1], CrashedHistory(f, point)[..height + 1])
  {
    hide Refines, CommitTables, OriginsMatch, JournalsFor, CacheFits, Covers, Shows, StoreOk, CrashedDisk;
  }

  ghost predicate CrashRefines(n: Node, f: FlatNode, hist: seq<Tables>, op: NodeOp)
    requires op.Crash? && NodeLegal(n, op)
  {
    && op.height < |CrashedTables(n, hist, op.point)|
    && NodeRefines(NodeApply(n, op), FlatNodeApply(f, op, HintOf(n, op)),
                   CrashedTables(n, hist, op.point)[..op.height + 1])
  }

  /** A crash at any point and the restart after it show again what was flushed for the
      height that the node comes up at. */
  lemma CrashStep(n: Node, f: FlatNode, hist: seq<Tables>, op: NodeOp)
    requires NodeRefines(n, f, hist) && op.Crash? && NodeLegal(n, op)
    ensures CrashRefines(n, f, hist, op)
  {
    hide NodeRefines, Refines, Shows, Rollback, DiskOk, CrashedDisk, CrashedTables, CrashedHistory, CacheFits;
    var d, tables, h := CrashedDisk(n, op.point), CrashedTables(n, hist, op.point), op.height;
    CrashedDiskOk(n, f, hist, op.point);
    OpenOk(d, tables);
    StoreHistory(Open(d), tables);
    RollbackRestores(Open(d), tables, h);
    CrashedHistoryOk(n, f, hist, op.point, h);
    var shown := CrashedHistory(f, op.point);
    assert Shows(tables[..h + 1][h], shown[..h + 1][h]);
    OpenedRefines(tables[h], shown[h]);
    OpenedNode(Rollback(Open(d), h).0, tables[..h + 1], FlatNodeApply(f, op, HintOf(n, op)));
  }

  lemma OpenedNode(s: Store, hist: seq<Tables>, f: FlatNode)
    requires StoreOk(s, hist) && HistoryOk(hist, f.hist) && f.pending.None?
    requires Refines(OpenedLedger(s.disk.tables), f.flat)
    ensures NodeRefines(Node(OpenedLedger(s.disk.tables), s, None), f, hist)
  {
    hide Refines, StoreOk, HistoryOk;
  }

  lemma RolledBackBase(s: Ledger, t: Tables)
    ensures RolledBackLedger(s, t).base == Base(EMPTY_CACHE, t) && CacheFits(EMPTY_CACHE, t)
  {
  }

  lemma RollbackHere(s: Store, h: nat)
    requires s.max == h && InWindow(s, h)
    ensures Rollback(s, h) == (s, RolledBack)
  {
  }

  lemma StoreHistory(s: Store, hist: seq<Tables>)
    requires StoreOk(s, hist)
    ensures |hist| == s.max + 1
  {
  }

  // ---- runs ------------------------------------------------------------------------------------------------

  ghost predicate LegalNodeRun(n: Node, ops: seq<NodeOp>)
    decreases |ops|
  {
    ops == [] || (NodeLegal(n, ops[0]) && LegalNodeRun(NodeApply(n, ops[0]), ops[1..]))
  }

  ghost function RunNode(n: Node, ops: seq<NodeOp>): Node
    requires LegalNodeRun(n, ops)
    decreases |ops|
  {
    if ops == [] then n else RunNode(NodeApply(n, ops[0]), ops[1..])
  }

  ghost function RunFlatNode(n: Node, f: FlatNode, ops: seq<NodeOp>): FlatNode
    requires LegalNodeRun(n, ops)
    decreases |ops|
  {
    if ops == [] then f
    else RunFlatNode(NodeApply(n, ops[0]), FlatNodeApply(f, ops[0], HintOf(n, ops[0])), ops[1..])
  }

  lemma NodeStep(n: Node, f: FlatNode, hist: seq<Tables>, op: NodeOp) returns (hist': seq<Tables>)
    requires NodeRefines(n, f, hist) && NodeLegal(n, op)
    ensures NodeRefines(NodeApply(n, op), FlatNodeApply(f, op, HintOf(n, op)), hist')
  {
    hide NodeRefines, FlatNodeApply, NodeApply;
    hist' := hist;
    match op
    case Do(o) => DoStep(n, f, hist, o);
    case FlushBlock(_, _) => FlushStep(n, f, hist, op);
    case CommitBlock =>
      CommitStep(n, f, hist);
      hist' := hist + [CommitTables(n.led.base.tables, n.pending.value.accs)];
    case RollbackTo(h) =>
      RollbackStep(n, f, hist, h);
      hist' := if InWindow(n.store, h) && h < |hist| then hist[..h + 1] else hist;
    case Crash(_, _) =>
      CrashStep(n, f, hist, op);
      hist' := CrashedTables(n, hist, op.point)[..op.height + 1];
    case _ => EvictStep(n, f, hist, op);
  }

  /** Over every run, the layered, cached, journaled ledger shows the flat state; a
      rollback to height `h`, or a restart at it, shows again what was flushed for block `h`. */
  lemma {:induction false} NodeRunRefines(n: Node, f: FlatNode, hist: seq<Tables>, ops: seq<NodeOp>)
    returns (hist': seq<Tables>)
    requires NodeRefines(n, f, hist) && LegalNodeRun(n, ops)
    ensures NodeRefines(RunNode(n, ops), RunFlatNode(n, f, ops), hist')
    ensures View(RunNode(n, ops).led) == RunFlatNode(n, f, ops).flat.cur
    decreases |ops|
  {
    hide NodeRefines, FlatNodeApply, NodeApply, NodeLegal, Refines;
    if ops == [] {
      hist' := hist;
      NodeShows(n, f, hist);
    } else {
      var h := NodeStep(n, f, hist, ops[0]);
      hist' := NodeRunRefines(NodeApply(n, ops[0]), FlatNodeApply(f, ops[0], HintOf(n, ops[0])), h, ops[1..]);
    }
  }

  lemma NodeShows(n: Node, f: FlatNode, hist: seq<Tables>)
    requires NodeRefines(n, f, hist)
    ensures View(n.led) == f.flat.cur
  {
  }

  // ---- the empty node ----------------------------------------------------------------------------------------

  const NO_TABLES := Tables(map[], map[], map[])
  const EMPTY_LEDGER := OpenedLedger(NO_TABLES)
  const EMPTY_NODE := Node(EMPTY_LEDGER, Store(Disk(NO_TABLES, map[], 0, 0), 0, 0, ZERO_HASH), None)

  ghost function EmptyFlat(): FlatNode {
    FlatNode(Flat(View(EMPTY_LEDGER), [], 0), None, [View(EMPTY_LEDGER)])
  }

  lemma EmptyNodeRefines()
    ensures NodeRefines(EMPTY_NODE, EmptyFlat(), [NO_TABLES])
  {
    var v := View(EMPTY_LEDGER);
    assert v == ViewOf(Base(EMPTY_CACHE, NO_TABLES), map[], v.extra);
  }

  /** From the empty node on, every run shows what the flat machine holds. */
  lemma EveryRunRefines(ops: seq<NodeOp>)
    requires LegalNodeRun(EMPTY_NODE, ops)
    ensures View(RunNode(EMPTY_NODE, ops).led) == RunFlatNode(EMPTY_NODE, EmptyFlat(), ops).flat.cur
  {
    EmptyNodeRefines();
    var hist := NodeRunRefines(EMPTY_NODE, EmptyFlat(), [NO_TABLES], ops);
  }
}
