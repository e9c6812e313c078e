/** State ledger and chain ledger together (ledger.go): persisting a block writes
    to both, rollback takes both back, and `New` brings them to one height after a
    crash between any two writes to the databases and the block file. */
module Recovery {
  import opened GoBytes
  import opened LedgerModel
  import opened BlockJournal
  import opened StateStore
  import ChainLedger

  type Chain = ChainLedger.Chain
  type Block = ChainLedger.Block

  // ---- crashes of the state store -------------------------------------------------------

  /** The disk after the first `n` batches of a commit. */
  function CommitPrefix(s: Store, accs: map<Address, Account>, block: BlockRecord, n: nat): Disk {
    if n == 0 then s.disk
    else if n == 1 then CommitBatch(s, s.max + 1, accs, block)
    else Commit(s, s.max + 1, accs, block).disk
  }

  /** The disk after the first `n` batches of a rollback to `height`. */
  function RollbackPrefix(d: Disk, height: nat, n: nat): Disk
    decreases n
  {
    if n == 0 || d.storedMax <= height || d.storedMax !in d.blocks then d
    else RollbackPrefix(RollbackBatch(d, d.storedMax), height, n - 1)
  }

  lemma CommitPrefixOk(s: Store, hist: seq<Tables>, accs: map<Address, Account>, block: BlockRecord, n: nat)
    requires StoreOk(s, hist) && OriginsMatch(s.disk.tables, accs) && JournalsFor(accs, block.entries)
    ensures DiskOk(CommitPrefix(s, accs, block, n),
                   if n == 0 then hist else hist + [CommitTables(s.disk.tables, accs)])
  {
    hide CommitTables, RevertEntries, OriginsMatch, JournalsFor, DiskOk, Commit;
    if n == 1 { CommitBatchOk(s, hist, accs, block); }
    if n >= 2 { CommitOk(s, hist, accs, block); }
  }

  lemma DiskShape(d: Disk, hist: seq<Tables>)
    requires DiskOk(d, hist)
    ensures |hist| == d.storedMax + 1 && (d.storedMax > 0 ==> d.storedMax in d.blocks && 1 <= d.storedMin)
  {
  }

  lemma {:induction false} RollbackPrefixOk(d: Disk, hist: seq<Tables>, height: nat, n: nat)
    requires DiskOk(d, hist) && height <= d.storedMax
    requires d.storedMin <= height || (d.storedMin <= 1 && height == 0)
    ensures var r := RollbackPrefix(d, height, n);
            && height <= r.storedMax && r.storedMax == (if n <= d.storedMax - height then d.storedMax - n else height)
            && r.storedMin == d.storedMin && DiskOk(r, hist[..r.storedMax + 1])
    decreases n
  {
    hide DiskOk, RevertEntries;
    DiskShape(d, hist);
    if n == 0 || d.storedMax <= height {
      assert hist[..d.storedMax + 1] == hist;
    } else {
      RollbackBatchOk(d, hist);
      var r := RollbackPrefix(RollbackBatch(d, d.storedMax), height, n - 1);
      RollbackPrefixOk(RollbackBatch(d, d.storedMax), hist[..d.storedMax], height, n - 1);
      assert hist[..d.storedMax][..r.storedMax + 1] == hist[..r.storedMax + 1];
    }
  }

  datatype StoreEvent =
    | Committed(accs: map<Address, Account>, block: BlockRecord)
    | CrashedCommit(accs: map<Address, Account>, block: BlockRecord, batches: nat)
    | RolledTo(height: nat)
    | CrashedRollback(height: nat, batches: nat)

  /** What an event makes of the store and of the history of its tables. */
  function StoreStep(s: Store, hist: seq<Tables>, e: StoreEvent): (Store, seq<Tables>)
    requires hist != []
  {
    match e
    case Committed(accs, block) =>
      (Commit(s, s.max + 1, accs, block), hist + [CommitTables(s.disk.tables, accs)])
    case CrashedCommit(accs, block, n) =>
      (Open(CommitPrefix(s, accs, block, n)), if n == 0 then hist else hist + [CommitTables(s.disk.tables, accs)])
    case RolledTo(height) =>
      (Rollback(s, height).0, if InWindow(s, height) && height < |hist| then hist[..height + 1] else hist)
    case CrashedRollback(height, n) =>
      if InWindow(s, height)
      then var d := RollbackPrefix(s.disk, height, n);
           (Open(d), if d.storedMax < |hist| then hist[..d.storedMax + 1] else hist)
      else (Open(s.disk), hist)
  }

  ghost predicate LegalEvent(s: Store, e: StoreEvent) {
    (e.Committed? || e.CrashedCommit?) ==> OriginsMatch(s.disk.tables, e.accs) && JournalsFor(e.accs, e.block.entries)
  }

  lemma StoreStepOk(s: Store, hist: seq<Tables>, e: StoreEvent)
    requires StoreOk(s, hist) && LegalEvent(s, e)
    ensures StoreOk(StoreStep(s, hist, e).0, StoreStep(s, hist, e).1)
    ensures e.Committed? ==> StoreStep(s, hist, e).0.max - StoreStep(s, hist, e).0.min <= WINDOW
  {
    hide DiskOk, CommitTables, OriginsMatch, JournalsFor;
    HistoryLength(s, hist);
    match e
    case Committed(accs, block) => CommitOk(s, hist, accs, block);
    case CrashedCommit(accs, block, n) =>
      CommitPrefixOk(s, hist, accs, block, n);
      OpenOk(CommitPrefix(s, accs, block, n), StoreStep(s, hist, e).1);
    case RolledTo(height) =>
      RollbackRestores(s, hist, height);
    case CrashedRollback(height, n) =>
      if InWindow(s, height) {
        RollbackPrefixOk(s.disk, hist, height, n);
        OpenOk(RollbackPrefix(s.disk, height, n), StoreStep(s, hist, e).1);
      } else {
        OpenOk(s.disk, hist);
      }
  }

  lemma HistoryLength(s: Store, hist: seq<Tables>)
    requires StoreOk(s, hist)
    ensures |hist| == s.max + 1 && s.disk.storedMax == s.max
    ensures forall h: nat :: InWindow(s, h) ==> s.disk.storedMin <= h || (s.disk.storedMin <= 1 && h == 0)
  {
  }

  function StoreRun(s: Store, hist: seq<Tables>, events: seq<StoreEvent>): (Store, seq<Tables>)
    requires hist != []
    decreases |events|
  {
    if events == [] then (s, hist)
    else
      var (t, h) := StoreStep(s, hist, events[0]);
      if h == [] then (t, hist) else StoreRun(t, h, events[1..])
  }

  ghost predicate LegalStoreRun(s: Store, hist: seq<Tables>, events: seq<StoreEvent>)
    decreases |events|
  {
    events == [] || hist == [] ||
    (LegalEvent(s, events[0]) &&
     var (t, h) := StoreStep(s, hist, events[0]); LegalStoreRun(t, h, events[1..]))
  }

  /** Over every run of commits, rollbacks and crashes inside either, the stored
      journals are exactly those of the stored range and lead back, block by block,
      to every earlier table in it. */
  lemma {:induction false} StoreRunOk(s: Store, hist: seq<Tables>, events: seq<StoreEvent>)
    requires StoreOk(s, hist) && LegalStoreRun(s, hist, events)
    ensures StoreOk(StoreRun(s, hist, events).0, StoreRun(s, hist, events).1)
    decreases |events|
  {
    hide StoreStep, LegalEvent;
    HistoryLength(s, hist);
    if events != [] {
      StoreStepOk(s, hist, events[0]);
      var (t, h) := StoreStep(s, hist, events[0]);
      HistoryLength(t, h);
      StoreRunOk(t, h, events[1..]);
    }
  }

  // ---- which heights a rollback can reach ------------------------------------------------

  /** The heights that a rollback can go to, kept as a set. */
  datatype Reach = Reach(top: nat, heights: set<nat>)

  const START := Reach(0, {0})

  /** Ten heights back from the newest, and the empty state while the first journal is kept. */
  function Pruned(r: Reach): Reach {
    r.(heights := set h | h in r.heights && r.top <= (if h == 0 then 11 else h + 10))
  }

  function Extended(r: Reach): Reach {
    Reach(r.top + 1, r.heights + {r.top + 1})
  }

  function Lowered(r: Reach, top: nat): Reach {
    Reach(top, set h | h in r.heights && h <= top)
  }

  /** A crash cuts a commit short before it prunes, and a rollback after some heights. */
  function ReachStep(r: Reach, e: StoreEvent): Reach {
    match e
    case Committed(_, _) => Pruned(Extended(r))
    case CrashedCommit(_, _, n) => if n == 0 then r else if n == 1 then Extended(r) else Pruned(Extended(r))
    case RolledTo(height) => if height in r.heights then Lowered(r, height) else r
    case CrashedRollback(height, n) =>
      if height !in r.heights || r.top <= height then r
      else Lowered(r, if n <= r.top - height then r.top - n else height)
  }

  function ReachRun(r: Reach, events: seq<StoreEvent>): Reach
    decreases |events|
  {
    if events == [] then r else ReachRun(ReachStep(r, events[0]), events[1..])
  }

  ghost predicate Reaches(s: Store, r: Reach) {
    s.max == r.top && forall h: nat :: InWindow(s, h) <==> h in r.heights
  }

  lemma CrashedWindow(s: Store, hist: seq<Tables>, height: nat, n: nat, h: nat)
    requires StoreOk(s, hist) && InWindow(s, height)
    ensures var t := Open(RollbackPrefix(s.disk, height, n));
            && t.max == (if n <= s.max - height then s.max - n else height)
            && (InWindow(t, h) <==> h <= t.max && InWindow(s, h))
  {
    hide RevertEntries;
    HistoryLength(s, hist);
    RollbackPrefixOk(s.disk, hist, height, n);
  }

  lemma ReachStepOk(s: Store, hist: seq<Tables>, r: Reach, e: StoreEvent)
    requires StoreOk(s, hist) && LegalEvent(s, e) && Reaches(s, r)
    ensures Reaches(StoreStep(s, hist, e).0, ReachStep(r, e))
  {
    hide CommitTables, OriginsMatch, JournalsFor, RevertEntries, DiskOk;
    HistoryLength(s, hist);
    var t, q := StoreStep(s, hist, e).0, ReachStep(r, e);
    StoreStepOk(s, hist, e);
    HistoryLength(t, StoreStep(s, hist, e).1);
    forall h: nat
      ensures InWindow(t, h) <==> h in q.heights
      ensures t.max == q.top
    {
      match e
      case Committed(accs, block) => CommitWindow(s, hist, accs, block, h);
      case CrashedCommit(accs, block, n) => CrashedCommitWindow(s, hist, accs, block, n, h);
      case RolledTo(height) =>
        RollbackRestores(s, hist, height);
        if InWindow(s, height) { RollbackWindow(s, hist, height, h); }
      case CrashedRollback(height, n) =>
        if InWindow(s, height) { CrashedWindow(s, hist, height, n, h); } else { OpenWindow(s, hist, h); }
    }
    assert InWindow(t, 0) <==> 0 in q.heights;
  }

  lemma OpenWindow(s: Store, hist: seq<Tables>, h: nat)
    requires StoreOk(s, hist)
    ensures Open(s.disk).max == s.max && (InWindow(Open(s.disk), h) <==> InWindow(s, h))
  {
  }

  lemma CrashedCommitWindow(
      s: Store, hist: seq<Tables>, accs: map<Address, Account>, block: BlockRecord, n: nat, h: nat)
    requires StoreOk(s, hist) && OriginsMatch(s.disk.tables, accs) && JournalsFor(accs, block.entries)
    ensures var t := Open(CommitPrefix(s, accs, block, n));
            && t.max == (if n == 0 then s.max else s.max + 1)
            && (InWindow(t, h) <==>
                if n == 0 then InWindow(s, h)
                else (h == s.max + 1 || InWindow(s, h)) && (n == 1 || s.max + 1 <= (if h == 0 then 11 else h + 10)))
  {
    hide CommitTables, RevertEntries, OriginsMatch, JournalsFor;
    if n >= 2 {
      CommitOk(s, hist, accs, block);
      CommitWindow(s, hist, accs, block, h);
      OpenWindow(Commit(s, s.max + 1, accs, block), hist + [CommitTables(s.disk.tables, accs)], h);
    }
  }

  /** Over every run of commits, rollbacks and crashes inside either, a rollback succeeds on
      exactly the heights of the set. */
  lemma {:induction false} ReachRunOk(s: Store, hist: seq<Tables>, r: Reach, events: seq<StoreEvent>)
    requires StoreOk(s, hist) && LegalStoreRun(s, hist, events) && Reaches(s, r)
    ensures Reaches(StoreRun(s, hist, events).0, ReachRun(r, events))
    ensures forall h: nat ::
              Rollback(StoreRun(s, hist, events).0, h).1 == RolledBack <==> h in ReachRun(r, events).heights
    decreases |events|
  {
    hide StoreStep, ReachStep, LegalEvent, Reaches;
    HistoryLength(s, hist);
    if events == [] {
      forall h: nat { RollbackRestores(s, hist, h); }
      ReachesMeans(s, r);
    } else {
      StoreStepOk(s, hist, events[0]);
      ReachStepOk(s, hist, r, events[0]);
      var (t, h) := StoreStep(s, hist, events[0]);
      HistoryLength(t, h);
      ReachRunOk(t, h, ReachStep(r, events[0]), events[1..]);
    }
  }

  lemma ReachesMeans(s: Store, r: Reach)
    requires Reaches(s, r)
    ensures forall h: nat :: InWindow(s, h) <==> h in r.heights
  {
  }

  predicate OnlyCommits(events: seq<StoreEvent>) {
    forall i | 0 <= i < |events| :: events[i].Committed?
  }

  /** The newest ten heights before the top, and the empty state up to height eleven. */
  ghost predicate LastTen(r: Reach, top: nat) {
    r.top == top && forall h: nat :: h in r.heights <==> h <= top <= (if h == 0 then 11 else h + 10)
  }

  lemma {:induction false} ReachCommits(r: Reach, events: seq<StoreEvent>)
    requires OnlyCommits(events) && LastTen(r, r.top)
    ensures LastTen(ReachRun(r, events), r.top + |events|)
    decreases |events|
  {
    if events != [] {
      assert events[0].Committed?;
      ReachCommits(ReachStep(r, events[0]), events[1..]);
    }
  }

  /** After n commits on an empty store a rollback succeeds on exactly the ten heights
      before n, on n itself, and on 0 while n is at most eleven. */
  lemma CommitsReach(s: Store, hist: seq<Tables>, events: seq<StoreEvent>, h: nat)
    requires StoreOk(s, hist) && s.max == 0 && LegalStoreRun(s, hist, events) && OnlyCommits(events)
    ensures var n := |events|;
            Rollback(StoreRun(s, hist, events).0, h).1 == RolledBack <==>
            h <= n <= (if h == 0 then 11 else h + 10)
  {
    hide LegalStoreRun, StoreRun, ReachRun;
    assert Reaches(s, START);
    ReachRunOk(s, hist, START, events);
    ReachCommits(START, events);
  }

  /** At most eleven journals are stored. */
  predicate SpanOk(s: Store) {
    s.max <= s.min + WINDOW
  }

  /** The window is full and a commit stops between its own batch and the pruning. */
  predicate CutShort(s: Store, e: StoreEvent) {
    e.CrashedCommit? && e.batches == 1 && s.min > 0 && s.max == s.min + WINDOW
  }

  /** The bound on the stored journals breaks exactly when a commit on a full window is
      cut short before it prunes. */
  lemma SpanIff(s: Store, hist: seq<Tables>, e: StoreEvent)
    requires StoreOk(s, hist) && LegalEvent(s, e) && SpanOk(s)
    ensures SpanOk(StoreStep(s, hist, e).0) <==> !CutShort(s, e)
  {
    hide CommitTables, OriginsMatch, JournalsFor, RevertEntries;
    HistoryLength(s, hist);
    match e
    case Committed(accs, block) => CommitOk(s, hist, accs, block);
    case CrashedCommit(accs, block, n) => if n >= 2 { CommitOk(s, hist, accs, block); }
    case RolledTo(height) => RollbackRestores(s, hist, height);
    case CrashedRollback(height, n) =>
      if InWindow(s, height) {
        RollbackPrefixOk(s.disk, hist, height, n);
      }
  }

  ghost predicate NeverCutShort(s: Store, hist: seq<Tables>, events: seq<StoreEvent>)
    decreases |events|
  {
    events == [] || hist == [] ||
    (!CutShort(s, events[0]) &&
     var (t, h) := StoreStep(s, hist, events[0]); NeverCutShort(t, h, events[1..]))
  }

  /** Over every run in which no commit is cut short there, at most eleven journals are
      ever stored. */
  lemma {:induction false} SpanRun(s: Store, hist: seq<Tables>, events: seq<StoreEvent>)
    requires StoreOk(s, hist) && LegalStoreRun(s, hist, events)
    requires SpanOk(s) && NeverCutShort(s, hist, events)
    ensures SpanOk(StoreRun(s, hist, events).0)
    decreases |events|
  {
    hide StoreStep, LegalEvent, CutShort;
    HistoryLength(s, hist);
    if events != [] {
      StoreStepOk(s, hist, events[0]);
      SpanIff(s, hist, events[0]);
      var (t, h) := StoreStep(s, hist, events[0]);
      HistoryLength(t, h);
      SpanRun(t, h, events[1..]);
    }
  }

  // ---- both halves -----------------------------------------------------------------------------

  /** `loadChainMeta`. */
  function OpenChain(c: Chain): Chain {
    c.(meta := if c.storedMeta.Some? then c.storedMeta.value
               else ChainLedger.ChainMeta(0, Some(ChainLedger.ZERO_HASH), 0))
  }

  datatype Opened = Opened(store: Store, chain: Chain) | Failed

  /** `New`: open both halves and roll back to the height of the chain. */
  function New(d: Disk, chain: Chain): Opened {
    var c := OpenChain(chain);
    var (s, res) := Rollback(Open(d), c.meta.height);
    if res != RolledBack then Failed
    else
      var (c', res') := ChainLedger.Rollback(c, c.meta.height);
      if res' != ChainLedger.RolledBack then Failed else Opened(s, c')
  }

  ghost predicate ChainOk(c: Chain, blocks: seq<Block>) {
    ChainLedger.Numbered(blocks) && ChainLedger.SameChain(c, ChainLedger.PersistAll(blocks))
  }

  /** The tables are those of `blocks`, whatever the block file holds. */
  ghost predicate TablesOf(c: Chain, blocks: seq<Block>) {
    ChainOk(OpenChain(c).(file := blocks), blocks)
  }

  lemma OpenChainOk(c: Chain, blocks: seq<Block>)
    requires ChainOk(c, blocks)
    ensures TablesOf(c, blocks) && c.file == blocks && OpenChain(c).meta.height == |blocks|
    ensures forall file: seq<Block> :: TablesOf(c.(file := file), blocks)
  {
    hide ChainLedger.PersistAll, ChainLedger.Numbered;
    ChainLedger.ChainFacts(c, blocks);
    assert OpenChain(c).(file := blocks) == OpenChain(c);
    forall file: seq<Block>
      ensures TablesOf(c.(file := file), blocks)
    {
      assert OpenChain(c.(file := file)).(file := blocks) == OpenChain(c);
    }
  }

  lemma TablesHeight(c: Chain, blocks: seq<Block>)
    requires TablesOf(c, blocks)
    ensures OpenChain(c).meta.height == |blocks|
    ensures ChainOk(OpenChain(c), blocks) <==> c.file == blocks
  {
    hide ChainLedger.PersistAll, ChainLedger.Numbered;
    ChainLedger.ChainFacts(OpenChain(c).(file := blocks), blocks);
    ChainLedger.PersistedMeta(blocks);
  }

  /** `New` looks at the height of the chain only: it succeeds exactly when that height is
      in the window of the state store. */
  lemma NewAtHeight(d: Disk, hist: seq<Tables>, c: Chain)
    requires DiskOk(d, hist)
    ensures New(d, c).Opened? <==> InWindow(Open(d), OpenChain(c).meta.height)
    ensures New(d, c).Opened? ==>
            var r, h := New(d, c), OpenChain(c).meta.height;
            && r.store.max == h < |hist| && StoreOk(r.store, hist[..h + 1]) && r.store.disk.tables == hist[h]
            && r.chain == OpenChain(c)
  {
    hide DiskOk;
    OpenOk(d, hist);
    HistoryLength(Open(d), hist);
    RollbackRestores(Open(d), hist, OpenChain(c).meta.height);
  }

  /** Where the tables are those of `blocks`, `New` brings both halves to their height, and
      the chain is that of the blocks exactly if the block file is. */
  lemma NewIff(d: Disk, hist: seq<Tables>, c: Chain, blocks: seq<Block>)
    requires DiskOk(d, hist) && TablesOf(c, blocks)
    ensures New(d, c).Opened? <==> InWindow(Open(d), |blocks|)
    ensures New(d, c).Opened? ==>
            var r := New(d, c);
            && r.store.max == |blocks| == r.chain.meta.height && |blocks| < |hist|
            && StoreOk(r.store, hist[..|blocks| + 1]) && r.store.disk.tables == hist[|blocks|]
            && r.chain == OpenChain(c) && (ChainOk(r.chain, blocks) <==> c.file == blocks)
  {
    hide DiskOk, TablesOf, ChainOk, New;
    TablesHeight(c, blocks);
    NewAtHeight(d, hist, c);
  }

  // ---- a crash while a block is persisted ------------------------------------------------------

  /** The chain side of a block is two writes that run at the same time: the block file and
      one batch. */
  function PersistedInPart(c: Chain, b: Block, fileDone: bool, batchDone: bool): Chain {
    (if batchDone then ChainLedger.Persist(c, b) else c).(file := if fileDone then c.file + [b] else c.file)
  }

  lemma PersistedTables(c: Chain, blocks: seq<Block>, b: Block, fileDone: bool, batchDone: bool)
    requires ChainOk(c, blocks) && b.number == |blocks| + 1
    ensures TablesOf(PersistedInPart(c, b, fileDone, batchDone), if batchDone then blocks + [b] else blocks)
    ensures PersistedInPart(c, b, fileDone, batchDone).file == if fileDone then blocks + [b] else blocks
  {
    hide ChainLedger.PersistAll, ChainLedger.SameChain, TablesOf, ChainLedger.PutMetas, ChainLedger.Sum;
    ChainLedger.PersistSame(c, blocks, b);
    OpenChainOk(c, blocks);
    OpenChainOk(ChainLedger.Persist(c, b), blocks + [b]);
  }

  /** A crash while block `b` is persisted: `n` batches of the state commit are on disk, the
      block file and the batch of the chain each have the block or not.  The node comes up
      again exactly unless the chain's batch got ahead of the state, and the chain it comes
      up with is sound exactly if file and batch agree. */
  lemma CrashWhilePersisting(
      s: Store, hist: seq<Tables>, c: Chain, blocks: seq<Block>,
      accs: map<Address, Account>, rec: BlockRecord, b: Block, n: nat, fileDone: bool, batchDone: bool)
    requires StoreOk(s, hist) && ChainOk(c, blocks) && s.max == |blocks| && b.number == |blocks| + 1
    requires OriginsMatch(s.disk.tables, accs) && JournalsFor(accs, rec.entries)
    ensures var r := New(CommitPrefix(s, accs, rec, n), PersistedInPart(c, b, fileDone, batchDone));
            var kept := if batchDone then blocks + [b] else blocks;
            && (r.Opened? <==> n > 0 || !batchDone)
            && (r.Opened? ==>
                  && r.store.max == r.chain.meta.height == |kept|
                  && r.store.disk.tables == (if batchDone then CommitTables(s.disk.tables, accs) else s.disk.tables)
                  && r.chain.file == (if fileDone then blocks + [b] else blocks)
                  && (ChainOk(r.chain, kept) <==> fileDone == batchDone))
  {
    hide CommitTables, OriginsMatch, JournalsFor, New, ChainOk, TablesOf, PersistedInPart, CommitPrefix;
    var d := CommitPrefix(s, accs, rec, n);
    var hist' := if n == 0 then hist else hist + [CommitTables(s.disk.tables, accs)];
    var kept := if batchDone then blocks + [b] else blocks;
    CommitPrefixOk(s, hist, accs, rec, n);
    PersistedTables(c, blocks, b, fileDone, batchDone);
    NewIff(d, hist', PersistedInPart(c, b, fileDone, batchDone), kept);
    PrefixWindow(s, hist, accs, rec, n);
  }

  lemma PrefixWindow(s: Store, hist: seq<Tables>, accs: map<Address, Account>, rec: BlockRecord, n: nat)
    requires StoreOk(s, hist)
    ensures InWindow(Open(CommitPrefix(s, accs, rec, n)), s.max)
    ensures InWindow(Open(CommitPrefix(s, accs, rec, n)), s.max + 1) <==> n > 0
  {
    hide CommitTables, RevertEntries;
  }

  /** With the file behind the tables, the node cannot roll back any more. */
  lemma FileBehind(c: Chain, blocks: seq<Block>, h: nat)
    requires TablesOf(c, blocks) && |c.file| < |blocks| && h < |blocks|
    ensures ChainLedger.Rollback(OpenChain(c), h).1 == ChainLedger.Unreadable
  {
    hide TablesOf;
    TablesHeight(c, blocks);
  }

  /** With the file ahead, the next rollback cuts it back to what the tables say. */
  lemma FileAhead(c: Chain, blocks: seq<Block>, more: seq<Block>, h: nat)
    requires TablesOf(c, blocks) && c.file == blocks + more && h < |blocks| && ChainLedger.NoReuse(blocks, h)
    ensures ChainLedger.Rollback(OpenChain(c), h).1 == ChainLedger.RolledBack
    ensures ChainOk(ChainLedger.Rollback(OpenChain(c), h).0, blocks[..h])
  {
    hide ChainLedger.PersistAll, ChainLedger.NoReuse, ChainLedger.RemoveAbove, ChainLedger.Numbered;
    var long, short := OpenChain(c), OpenChain(c).(file := blocks);
    TablesHeight(c, blocks);
    ChainLedger.ChainFacts(short, blocks);
    ChainLedger.RollbackRestoresFile(short, blocks, h);
    ChainLedger.RollbackSame(short, blocks, h);
    ChainLedger.NumberedPrefix(blocks, h);
    CutToTables(short, blocks, more, h);
  }

  lemma CutToTables(short: Chain, blocks: seq<Block>, more: seq<Block>, h: nat)
    requires short.file == blocks && short.meta.height == |blocks| && h < |blocks| && |blocks| in short.txSets
    ensures ChainLedger.RemoveAbove(short.(file := blocks + more), short.txSets, |blocks|, h) ==
            ChainLedger.RemoveAbove(short, short.txSets, |blocks|, h)
  {
    var n := |blocks|;
    var long := short.(file := blocks + more);
    assert long.file[..n - 1] == short.file[..n - 1];
    assert ChainLedger.RemoveBlock(long, n, short.txSets[n]) == ChainLedger.RemoveBlock(short, n, short.txSets[n]);
  }

  // ---- a crash while both halves roll back ------------------------------------------------------

  /** The chain side of a rollback cuts the block file once per block and then writes one
      batch. */
  function RolledInPart(c: Chain, height: nat, cuts: nat, batchDone: bool): Chain {
    if batchDone then ChainLedger.Rollback(c, height).0
    else if cuts <= |c.file| then c.(file := c.file[..|c.file| - cuts]) else c
  }

  lemma RolledTables(c: Chain, blocks: seq<Block>, height: nat, cuts: nat, batchDone: bool)
    requires ChainOk(c, blocks) && height < |blocks| && cuts <= |blocks| - height
    ensures OpenChain(RolledInPart(c, height, cuts, batchDone)).meta.height == if batchDone then height else |blocks|
    ensures batchDone ==>
            (ChainOk(OpenChain(RolledInPart(c, height, cuts, batchDone)), blocks[..height]) <==>
             ChainLedger.NoReuse(blocks, height))
    ensures !batchDone && cuts == 0 ==> ChainOk(OpenChain(RolledInPart(c, height, cuts, batchDone)), blocks)
  {
    hide ChainLedger.PersistAll, ChainLedger.NoReuse, ChainLedger.Numbered, ChainLedger.Rollback;
    ChainLedger.ChainFacts(c, blocks);
    OpenChainOk(c, blocks);
    ChainLedger.NumberedPrefix(blocks, height);
    if batchDone {
      ChainLedger.RollbackRestoresFile(c, blocks, height);
      ChainLedger.RollbackRestoresIff(c, blocks, height);
      ChainLedger.PersistedMeta(blocks[..height]);
    } else {
      TablesHeight(RolledInPart(c, height, cuts, batchDone), blocks);
      assert c.file[..|c.file|] == c.file;
    }
  }

  /** A crash while both halves roll back to `height`.  The state side goes first, then the
      block file is cut block by block, then the chain's batch is written.  The node comes up
      again exactly if the state side had not started or that batch was written. */
  lemma CrashWhileRollingBack(
      s: Store, hist: seq<Tables>, c: Chain, blocks: seq<Block>, height: nat, n: nat, cuts: nat, batchDone: bool)
    requires StoreOk(s, hist) && ChainOk(c, blocks) && s.max == |blocks|
    requires InWindow(s, height) && height < |blocks| && cuts <= |blocks| - height
    requires cuts > 0 || batchDone ==> n >= s.max - height
    requires batchDone ==> cuts == |blocks| - height
    ensures var r := New(RollbackPrefix(s.disk, height, n), RolledInPart(c, height, cuts, batchDone));
            var kept := if batchDone then blocks[..height] else blocks;
            && (r.Opened? <==> n == 0 || batchDone)
            && (r.Opened? ==>
                  && r.store.max == r.chain.meta.height == |kept| && r.store.disk.tables == hist[|kept|]
                  && (ChainOk(r.chain, kept) <==> !batchDone || ChainLedger.NoReuse(blocks, height)))
  {
    hide DiskOk, New, RollbackPrefix, RolledInPart, ChainLedger.NoReuse, ChainOk, OpenChain;
    HistoryLength(s, hist);
    RollbackPrefixOk(s.disk, hist, height, n);
    var d := RollbackPrefix(s.disk, height, n);
    RolledTables(c, blocks, height, cuts, batchDone);
    NewAtHeight(d, hist[..d.storedMax + 1], RolledInPart(c, height, cuts, batchDone));
  }
}
