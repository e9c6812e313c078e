/** The stored side of the state ledger: tables, block journals and their height
    range, as `Commit`, `removeJournalsBeforeBlock`, `RollbackState` and a restart
    leave them, one database batch at a time. */
module StateStore {
  import opened GoBytes
  import opened LedgerModel
  import opened BlockJournal

  datatype BlockRecord = BlockRecord(entries: seq<JournalEntry>, changedHash: Bytes)

  /** What survives a crash. */
  datatype Disk = Disk(tables: Tables, blocks: map<nat, BlockRecord>, storedMin: nat, storedMax: nat)

  /** The open ledger: the disk and the in-memory range and hash. */
  datatype Store = Store(disk: Disk, min: nat, max: nat, prevHash: Bytes)

  const WINDOW: nat := 10
  const ZERO_HASH: Bytes := []

  // ---- batches ------------------------------------------------------------------------

  function CommitBatch(s: Store, height: nat, accs: map<Address, Account>, block: BlockRecord): Disk {
    Disk(CommitTables(s.disk.tables, accs), s.disk.blocks[height := block],
         if s.min == 0 then height else s.disk.storedMin, height)
  }

  function PruneBatch(d: Disk, from: nat, height: nat): Disk {
    d.(blocks := map i | i in d.blocks && !(from <= i < height) :: d.blocks[i], storedMin := height)
  }

  function RollbackBatch(d: Disk, i: nat): Disk
    requires i in d.blocks && i > 0
  {
    Disk(RevertEntries(d.tables, d.blocks[i].entries), d.blocks - {i}, d.storedMin, i - 1)
  }

  // ---- operations ------------------------------------------------------------------------

  /** `removeJournalsBeforeBlock`. */
  function RemoveBefore(s: Store, height: nat): Store {
    if height > s.max || height <= s.min then s
    else s.(disk := PruneBatch(s.disk, s.min, height), min := height)
  }

  function Commit(s: Store, height: nat, accs: map<Address, Account>, block: BlockRecord): Store {
    var min := if s.min == 0 then height else s.min;
    var t := Store(CommitBatch(s, height, accs, block), min, height, block.changedHash);
    if height > WINDOW then RemoveBefore(t, height - WINDOW) else t
  }

  datatype RollbackResult = RolledBack | ToHigherNumber | TooMuch | WithoutJournal

  /** The loop of `RollbackState`: one batch per height. */
  function RollbackLoop(d: Disk, i: nat, height: nat): (Disk, RollbackResult)
    decreases i
  {
    if i <= height then (d, RolledBack)
    else if i !in d.blocks then (d, WithoutJournal)
    else RollbackLoop(RollbackBatch(d, i), i - 1, height)
  }

  function Rollback(s: Store, height: nat): (Store, RollbackResult) {
    if s.max < height then (s, ToHigherNumber)
    else if s.min > height && !(s.min == 1 && height == 0) then (s, TooMuch)
    else if s.max == height then (s, RolledBack)
    else
      var (d, res) := RollbackLoop(s.disk, s.max, height);
      if res != RolledBack then (s.(disk := d), res)
      else if height == 0 then (Store(d, 0, 0, ZERO_HASH), RolledBack)
      else if height in d.blocks then (Store(d, s.min, height, d.blocks[height].changedHash), RolledBack)
      else (s.(disk := d), WithoutJournal)
  }

  /** `NewSimpleLedger` on what a stopped node left behind. */
  function Open(d: Disk): Store {
    Store(d, d.storedMin, d.storedMax,
          if d.storedMax in d.blocks && d.storedMax != 0 then d.blocks[d.storedMax].changedHash else ZERO_HASH)
  }

  // ---- the invariant -----------------------------------------------------------------------

  /** `hist[i]` is what the tables held right after block `i`.  The stored journals
      are exactly those of the heights in the stored range, and each takes the
      tables of its height back to the height before. */
  ghost predicate DiskOk(d: Disk, hist: seq<Tables>) {
    && |hist| == d.storedMax + 1 && d.tables == hist[d.storedMax]
    && (if d.storedMax == 0 then d.storedMin <= 1 else 1 <= d.storedMin <= d.storedMax)
    && (forall i: nat :: i in d.blocks <==> 1 <= i && d.storedMin <= i <= d.storedMax)
    && (forall i | i in d.blocks :: RevertEntries(hist[i], d.blocks[i].entries) == hist[i - 1])
  }

  ghost predicate StoreOk(s: Store, hist: seq<Tables>) {
    && DiskOk(s.disk, hist) && s.max == s.disk.storedMax
    && (s.min == s.disk.storedMin || (s.max == 0 && s.min == 0))
    && s.prevHash == if s.max == 0 then ZERO_HASH else s.disk.blocks[s.max].changedHash
  }

  /** Heights that the window still reaches. */
  predicate InWindow(s: Store, height: nat) {
    height <= s.max && (s.min <= height || (s.min == 1 && height == 0))
  }

  lemma CommitBatchOk(s: Store, hist: seq<Tables>, accs: map<Address, Account>, block: BlockRecord)
    requires StoreOk(s, hist) && OriginsMatch(s.disk.tables, accs) && JournalsFor(accs, block.entries)
    ensures DiskOk(CommitBatch(s, s.max + 1, accs, block), hist + [CommitTables(s.disk.tables, accs)])
  {
    hide CommitTables, RevertEntries, OriginsMatch, JournalsFor;
    RevertUndoesCommit(s.disk.tables, accs, block.entries);
    var hist' := hist + [CommitTables(s.disk.tables, accs)];
    var d := CommitBatch(s, s.max + 1, accs, block);
    forall i | i in d.blocks
      ensures RevertEntries(hist'[i], d.blocks[i].entries) == hist'[i - 1]
    {
      if i <= s.max { assert i in s.disk.blocks; }
    }
  }

  lemma PruneBatchOk(d: Disk, hist: seq<Tables>, height: nat)
    requires DiskOk(d, hist) && d.storedMin <= height <= d.storedMax && 1 <= d.storedMin
    ensures DiskOk(PruneBatch(d, d.storedMin, height), hist)
  {
  }

  /** A commit extends the history by one block and leaves at most eleven journals. */
  lemma CommitOk(s: Store, hist: seq<Tables>, accs: map<Address, Account>, block: BlockRecord)
    requires StoreOk(s, hist) && OriginsMatch(s.disk.tables, accs) && JournalsFor(accs, block.entries)
    ensures var t := Commit(s, s.max + 1, accs, block);
            && StoreOk(t, hist + [CommitTables(s.disk.tables, accs)])
            && t.max == s.max + 1 && t.max - t.min <= WINDOW
  {
    hide CommitTables, RevertEntries, OriginsMatch, JournalsFor;
    CommitBatchOk(s, hist, accs, block);
    var hist' := hist + [CommitTables(s.disk.tables, accs)];
    var d := CommitBatch(s, s.max + 1, accs, block);
    if s.max + 1 > WINDOW && s.max + 1 - WINDOW > d.storedMin {
      PruneBatchOk(d, hist', s.max + 1 - WINDOW);
    }
  }

  /** After a commit the window reaches back ten heights from the new one, as far as it did
      before, and to the empty state as long as the first journal is kept. */
  lemma CommitWindow(s: Store, hist: seq<Tables>, accs: map<Address, Account>, block: BlockRecord, h: nat)
    requires StoreOk(s, hist)
    ensures InWindow(Commit(s, s.max + 1, accs, block), h) <==>
            (h == s.max + 1 || InWindow(s, h)) && s.max + 1 <= (if h == 0 then 11 else h + 10)
  {
    hide CommitTables, RevertEntries;
  }

  /** A rollback leaves the heights below that were in the window, and no other. */
  lemma RollbackWindow(s: Store, hist: seq<Tables>, height: nat, h: nat)
    requires StoreOk(s, hist) && InWindow(s, height)
    ensures InWindow(Rollback(s, height).0, h) <==> h <= height && InWindow(s, h)
  {
    RollbackRestores(s, hist, height);
  }

  /** One rollback batch goes back one height. */
  lemma RollbackBatchOk(d: Disk, hist: seq<Tables>)
    requires DiskOk(d, hist) && d.storedMax > 0 && (d.storedMin < d.storedMax || d.storedMin == 1)
    ensures d.storedMax in d.blocks
    ensures DiskOk(RollbackBatch(d, d.storedMax), hist[..d.storedMax])
  {
    hide RevertEntries;
    var r := RollbackBatch(d, d.storedMax);
    var hist' := hist[..d.storedMax];
    forall i | i in r.blocks
      ensures RevertEntries(hist'[i], r.blocks[i].entries) == hist'[i - 1]
    {
      assert i in d.blocks && i < d.storedMax;
    }
  }

  lemma {:induction false} RollbackLoopOk(d: Disk, hist: seq<Tables>, height: nat)
    requires DiskOk(d, hist) && height <= d.storedMax
    requires d.storedMin <= height || (d.storedMin <= 1 && height == 0)
    ensures var (r, res) := RollbackLoop(d, d.storedMax, height);
            res == RolledBack && DiskOk(r, hist[..height + 1]) && r.storedMin == d.storedMin && r.storedMax == height
    decreases d.storedMax
  {
    hide RevertEntries;
    if d.storedMax > height {
      RollbackBatchOk(d, hist);
      var r := RollbackBatch(d, d.storedMax);
      RollbackLoopOk(r, hist[..d.storedMax], height);
      assert hist[..d.storedMax][..height + 1] == hist[..height + 1];
    } else {
      assert hist[..height + 1] == hist;
    }
  }

  /** `RollbackState(height)` succeeds exactly on the heights in the window, and then
      the tables are those that block `height` left; otherwise nothing changes. */
  lemma RollbackRestores(s: Store, hist: seq<Tables>, height: nat)
    requires StoreOk(s, hist)
    ensures var (t, res) := Rollback(s, height);
            && (res == RolledBack <==> InWindow(s, height))
            && (if res == RolledBack
                then StoreOk(t, hist[..height + 1]) && t.disk.tables == hist[height] && t.max == height
                     && (height > 0 ==> t.min == s.min)
                else t == s)
  {
    hide RevertEntries;
    if InWindow(s, height) {
      if s.max == height {
        assert hist[..height + 1] == hist;
      } else {
        RollbackLoopOk(s.disk, hist, height);
        if height > 0 { assert height in RollbackLoop(s.disk, s.max, height).0.blocks; }
      }
    }
  }

  lemma OpenOk(d: Disk, hist: seq<Tables>)
    requires DiskOk(d, hist)
    ensures StoreOk(Open(d), hist)
  {
  }
}
