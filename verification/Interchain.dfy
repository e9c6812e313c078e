/** The interchain counters of interchain.go: requests and receipts between services
    are accepted in order and once each. */
module Interchain {
  import opened GoBytes
  import opened GoStrings

  type Id = string

  /** The counters stored under one service. */
  datatype Counters = Counters(
    interchain: map<Id, nat>, receipt: map<Id, nat>,
    sourceInterchain: map<Id, nat>, sourceReceipt: map<Id, nat>)

  const NO_COUNTERS := Counters(map[], map[], map[], map[])

  datatype ChainService = ChainService(bxhId: string, chainId: string, serviceId: string, isLocal: bool)

  // ---- ids -----------------------------------------------------------------------------------

  /** `parseChainService`. */
  function Parse(id: Id, bxhId: string): Option<ChainService> {
    var parts := Split(id, ':');
    if |parts| != 3 then None
    else Some(ChainService(parts[0], parts[1], parts[2], parts[0] == bxhId))
  }

  function FullId(cs: ChainService): Id {
    cs.bxhId + ":" + cs.chainId + ":" + cs.serviceId
  }

  /** The id that a parsed service prints is the one that was parsed, so the counter
      that is checked is the counter that is advanced. */
  lemma ParseFullId(id: Id, bxhId: string)
    ensures Parse(id, bxhId).Some? ==> FullId(Parse(id, bxhId).value) == id
  {
    JoinSplit(id, ':');
    var parts := Split(id, ':');
    if |parts| == 3 {
      assert parts[1..][1..] == [parts[2]];
      assert Join(parts[1..], ':') == parts[1] + [':'] + parts[2];
    }
  }

  // ---- messages ----------------------------------------------------------------------------------

  datatype Category = Request | Response | Unknown

  /** What the proof attached to a message says when it is read. */
  datatype Proof = Malformed | RolledBack | OtherStatus

  /** A message and what the other contracts answer while it is handled. */
  datatype Ibtp = Ibtp(
    from: Id, to: Id, index: nat, category: Category, proof: Proof,
    sourceAvailable: bool,    // source service, or source hub, is available
    batch: bool,              // destination is available, permits the source and is unordered
    managed: bool,            // the transaction manager accepts Begin or Report
    final: bool)              // the status reported is final

  datatype Reject =
    | ParseError | SourceUnavailable | NotInThisHub | IllegalType
    | IndexExists | IndexWrong | ProofError | ManagerError

  /** The contract's store: counters by service, and the requests on record. */
  datatype Store = Store(services: map<Id, Counters>, recorded: set<(Id, Id, nat)>)

  function Get(m: map<Id, nat>, k: Id): nat {
    if k in m then m[k] else 0
  }

  /** `getInterchain`. */
  function Service(services: map<Id, Counters>, id: Id): Counters {
    if id in services then services[id] else NO_COUNTERS
  }

  function CheckIndex(expected: nat, index: nat): Option<Reject> {
    if index < expected then Some(IndexExists) else if index > expected then Some(IndexWrong) else None
  }

  predicate CrossHub(m: Ibtp, bxhId: string) {
    var src, dst := Parse(m.from, bxhId), Parse(m.to, bxhId);
    src.Some? && dst.Some? && src.value.bxhId != dst.value.bxhId
  }

  /** A recorded inter-hub request coming back, whose proof is then read. */
  predicate Returning(s: Store, m: Ibtp, bxhId: string) {
    CrossHub(m, bxhId) && m.category != Response && (m.from, m.to, m.index) in s.recorded
  }

  /** `checkTxStatusForSourceBxh`: the other hub reports a rollback. */
  predicate IsNotification(s: Store, m: Ibtp, bxhId: string) {
    Returning(s, m, bxhId) && m.proof == RolledBack
  }

  predicate IsRequest(s: Store, m: Ibtp, bxhId: string) {
    m.category == Request && !IsNotification(s, m, bxhId)
  }

  /** `checkIBTP`. */
  function Check(s: Store, m: Ibtp, bxhId: string): Option<Reject> {
    var src, dst := Parse(m.from, bxhId), Parse(m.to, bxhId);
    if src.None? || dst.None? then Some(ParseError)
    else if Returning(s, m, bxhId) && m.proof == Malformed then Some(ProofError)
    else
      var c := Service(s.services, FullId(src.value));
      if IsRequest(s, m, bxhId) then
        if !src.value.isLocal && !dst.value.isLocal then Some(NotInThisHub)
        else if !m.sourceAvailable then Some(SourceUnavailable)
        else if m.batch then None
        else CheckIndex(Get(c.interchain, FullId(dst.value)) + 1, m.index)
      else if m.category == Response || IsNotification(s, m, bxhId) then
        if !src.value.isLocal && !dst.value.isLocal then Some(NotInThisHub)
        else CheckIndex(Get(c.receipt, FullId(dst.value)) + 1, m.index)
      else Some(IllegalType)
  }

  predicate ForHub(m: Ibtp, bxhId: string) {
    var dst := Parse(m.to, bxhId);
    dst.Some? && dst.value.chainId == dst.value.bxhId
  }

  /** `ProcessIBTP` for a request. */
  function ProcessRequest(services: map<Id, Counters>, m: Ibtp, forHub: bool): map<Id, Counters> {
    var c := Service(services, m.from);
    var s := services[m.from := c.(interchain := c.interchain[m.to := Get(c.interchain, m.to) + 1])];
    if forHub then s
    else
      var d := Service(s, m.to);
      s[m.to := d.(sourceInterchain := d.sourceInterchain[m.from := m.index])]
  }

  /** A receipt is counted at both ends. */
  function Returned(services: map<Id, Counters>, from: Id, to: Id, index: nat): map<Id, Counters> {
    var c := Service(services, from);
    var s := services[from := c.(receipt := c.receipt[to := index])];
    var d := Service(s, to);
    s[to := d.(sourceReceipt := d.sourceReceipt[from := index])]
  }

  /** `ProcessIBTP` for a receipt, once the status is final. */
  function ProcessReceipt(services: map<Id, Counters>, m: Ibtp): map<Id, Counters> {
    if m.final then Returned(services, m.from, m.to, m.index) else services
  }

  /** `HandleIBTP`: a rejected message changes nothing. Only a request or a response reaches
      the transaction manager, and any other category has no status to go on with. */
  predicate Accepts(s: Store, m: Ibtp, bxhId: string) {
    Check(s, m, bxhId).None? && m.category != Unknown && m.managed
  }

  function Handle(s: Store, m: Ibtp, bxhId: string): Store {
    if !Accepts(s, m, bxhId) then s
    else if IsRequest(s, m, bxhId) then
      Store(ProcessRequest(s.services, m, ForHub(m, bxhId)), s.recorded + {(m.from, m.to, m.index)})
    else s.(services := ProcessReceipt(s.services, m))
  }

  // ---- runs of the contract -------------------------------------------------------------------------

  /** The store and the indices accepted so far for one pair of services. */
  datatype Trace = Trace(store: Store, requests: seq<nat>, receipts: seq<nat>)

  const START := Trace(Store(map[], {}), [], [])

  predicate OfPair(m: Ibtp, from: Id, to: Id) {
    m.from == from && m.to == to
  }

  function Step(t: Trace, m: Ibtp, bxhId: string, from: Id, to: Id): Trace {
    var store := Handle(t.store, m, bxhId);
    if !OfPair(m, from, to) || !Accepts(t.store, m, bxhId) then t.(store := store)
    else if IsRequest(t.store, m, bxhId) then t.(store := store, requests := t.requests + [m.index])
    else t.(store := store, receipts := t.receipts + [m.index])
  }

  function Run(t: Trace, ms: seq<Ibtp>, bxhId: string, from: Id, to: Id): Trace
    decreases |ms|
  {
    if ms == [] then t else Run(Step(t, ms[0], bxhId, from, to), ms[1..], bxhId, from, to)
  }

  /** `Report` succeeds only for a request that was begun. */
  predicate Reportable(s: Store, m: Ibtp) {
    m.category == Response && m.managed ==> (m.from, m.to, m.index) in s.recorded
  }

  predicate LegalRun(t: Trace, ms: seq<Ibtp>, bxhId: string, from: Id, to: Id)
    decreases |ms|
  {
    ms == [] ||
    (&& (OfPair(ms[0], from, to) ==> Reportable(t.store, ms[0]))
     && LegalRun(Step(t, ms[0], bxhId, from, to), ms[1..], bxhId, from, to))
  }

  /** The destination is ordered and is not the hub itself. */
  predicate OrderedMessage(m: Ibtp, bxhId: string) {
    !m.batch && !ForHub(m, bxhId)
  }

  predicate OrderedPair(ms: seq<Ibtp>, bxhId: string, from: Id, to: Id) {
    forall i | 0 <= i < |ms| && OfPair(ms[i], from, to) :: OrderedMessage(ms[i], bxhId)
  }

  /** The four counters of a pair, two kept by its source and two by its destination. */
  datatype Tally = Tally(sent: nat, returned: nat, sentAtDest: nat, returnedAtDest: nat)

  function TallyOf(services: map<Id, Counters>, from: Id, to: Id): Tally {
    var c, d := Service(services, from), Service(services, to);
    Tally(Get(c.interchain, to), Get(c.receipt, to), Get(d.sourceInterchain, from), Get(d.sourceReceipt, from))
  }

  function UpTo(n: nat): seq<nat> {
    seq(n, i => i + 1)
  }

  /** Accepted receipts repeat an index until its status is final, and then move on by one. */
  predicate InOrder(indices: seq<nat>, returned: nat) {
    && (forall i | 0 <= i < |indices| :: 1 <= indices[i] <= returned + 1)
    && (forall i | 0 <= i < |indices| - 1 :: indices[i] <= indices[i + 1] <= indices[i] + 1)
    && (indices == [] ==> returned == 0)
    && (indices != [] ==> indices[0] == 1 && indices[|indices| - 1] >= returned)
  }

  ghost predicate PairOk(t: Trace, from: Id, to: Id) {
    var c := TallyOf(t.store.services, from, to);
    && t.requests == UpTo(c.sent)
    && c.sentAtDest == c.sent
    && c.returnedAtDest == c.returned <= c.sent
    && InOrder(t.receipts, c.returned)
    && (forall i: nat :: (from, to, i) in t.store.recorded <==> 1 <= i <= c.sent)
  }

  lemma RequestTally(services: map<Id, Counters>, m: Ibtp, forHub: bool, from: Id, to: Id)
    ensures var c := TallyOf(services, from, to);
            TallyOf(ProcessRequest(services, m, forHub), from, to) ==
            if OfPair(m, from, to)
            then c.(sent := c.sent + 1, sentAtDest := if forHub then c.sentAtDest else m.index)
            else c
  {
  }

  lemma ReturnedTally(services: map<Id, Counters>, from: Id, to: Id, index: nat, f: Id, t: Id)
    ensures var c := TallyOf(services, f, t);
            TallyOf(Returned(services, from, to, index), f, t) ==
            if f == from && t == to then c.(returned := index, returnedAtDest := index) else c
  {
  }

  /** Both receipt counters of the pair are set and no other counter of any pair changes, also
      where source and destination are the same service. */
  ghost predicate ReceiptCounted(before: map<Id, Counters>, after: map<Id, Counters>, from: Id, to: Id, index: nat) {
    forall f: Id, t: Id ::
      var c := TallyOf(before, f, t);
      TallyOf(after, f, t) == if f == from && t == to then c.(returned := index, returnedAtDest := index) else c
  }

  lemma ReturnedCounts(services: map<Id, Counters>, from: Id, to: Id, index: nat)
    ensures ReceiptCounted(services, Returned(services, from, to, index), from, to, index)
  {
    hide Returned, TallyOf;
    forall f: Id, t: Id { ReturnedTally(services, from, to, index, f, t); }
  }

  lemma ReceiptTally(services: map<Id, Counters>, m: Ibtp, from: Id, to: Id)
    ensures var c := TallyOf(services, from, to);
            TallyOf(ProcessReceipt(services, m), from, to) ==
            if OfPair(m, from, to) && m.final then c.(returned := m.index, returnedAtDest := m.index) else c
  {
    hide Returned, TallyOf;
    ReturnedTally(services, m.from, m.to, m.index, from, to);
  }

  /** A message is accepted only with the index the pair's counter calls for. */
  lemma CheckedIndex(s: Store, m: Ibtp, bxhId: string)
    requires Check(s, m, bxhId).None?
    ensures var c := TallyOf(s.services, m.from, m.to);
            if IsRequest(s, m, bxhId) then m.batch || m.index == c.sent + 1 else m.index == c.returned + 1
  {
    ParseFullId(m.from, bxhId);
    ParseFullId(m.to, bxhId);
  }

  lemma OtherPair(t: Trace, m: Ibtp, bxhId: string, from: Id, to: Id)
    requires PairOk(t, from, to) && !OfPair(m, from, to)
    ensures PairOk(Step(t, m, bxhId, from, to), from, to)
  {
    hide ProcessRequest, ProcessReceipt, TallyOf, Check, ForHub, UpTo, InOrder;
    RequestTally(t.store.services, m, ForHub(m, bxhId), from, to);
    ReceiptTally(t.store.services, m, from, to);
  }

  lemma UpToNext(n: nat)
    ensures UpTo(n + 1) == UpTo(n) + [n + 1]
  {
  }

  lemma RequestStep(t: Trace, m: Ibtp, bxhId: string)
    requires PairOk(t, m.from, m.to) && OrderedMessage(m, bxhId)
    requires Accepts(t.store, m, bxhId) && IsRequest(t.store, m, bxhId)
    ensures PairOk(Step(t, m, bxhId, m.from, m.to), m.from, m.to)
  {
    hide ProcessRequest, ProcessReceipt, TallyOf, Check, ForHub, UpTo, InOrder;
    CheckedIndex(t.store, m, bxhId);
    RequestTally(t.store.services, m, ForHub(m, bxhId), m.from, m.to);
    UpToNext(TallyOf(t.store.services, m.from, m.to).sent);
  }

  lemma InOrderNext(indices: seq<nat>, returned: nat, final: bool)
    requires InOrder(indices, returned)
    ensures InOrder(indices + [returned + 1], if final then returned + 1 else returned)
  {
  }

  lemma ReceiptStep(t: Trace, m: Ibtp, bxhId: string)
    requires PairOk(t, m.from, m.to) && Reportable(t.store, m)
    requires Accepts(t.store, m, bxhId) && !IsRequest(t.store, m, bxhId)
    ensures PairOk(Step(t, m, bxhId, m.from, m.to), m.from, m.to)
  {
    hide ProcessRequest, ProcessReceipt, TallyOf, ForHub, UpTo, InOrder, Parse, FullId;
    assert (m.from, m.to, m.index) in t.store.recorded;
    CheckedIndex(t.store, m, bxhId);
    ReceiptTally(t.store.services, m, m.from, m.to);
    InOrderNext(t.receipts, TallyOf(t.store.services, m.from, m.to).returned, m.final);
  }

  /** Over every run of messages between any services, an ordered pair accepts the
      requests 1, 2, 3, ... once each; source and destination counters agree; receipts
      advance one by one, agree on both sides and never pass the requests. */
  lemma {:induction false} PairInvariant(t: Trace, ms: seq<Ibtp>, bxhId: string, from: Id, to: Id)
    requires PairOk(t, from, to) && LegalRun(t, ms, bxhId, from, to) && OrderedPair(ms, bxhId, from, to)
    ensures PairOk(Run(t, ms, bxhId, from, to), from, to)
    decreases |ms|
  {
    hide PairOk, Accepts, IsRequest, OrderedMessage, Reportable;
    if ms != [] {
      var m := ms[0];
      if !OfPair(m, from, to) {
        OtherPair(t, m, bxhId, from, to);
      } else if !Accepts(t.store, m, bxhId) {
        assert Step(t, m, bxhId, from, to) == t;
      } else if IsRequest(t.store, m, bxhId) {
        RequestStep(t, m, bxhId);
      } else {
        ReceiptStep(t, m, bxhId);
      }
      PairInvariant(Step(t, m, bxhId, from, to), ms[1..], bxhId, from, to);
    }
  }

  lemma PairFromStart(ms: seq<Ibtp>, bxhId: string, from: Id, to: Id)
    requires LegalRun(START, ms, bxhId, from, to) && OrderedPair(ms, bxhId, from, to)
    ensures PairOk(Run(START, ms, bxhId, from, to), from, to)
  {
    PairInvariant(START, ms, bxhId, from, to);
  }

  // ---- exactly what is accepted ----------------------------------------------------------------------

  /** Both ids have three parts. */
  predicate WellFormed(m: Ibtp) {
    |Split(m.from, ':')| == 3 && |Split(m.to, ':')| == 3
  }

  /** The first part of an id names its hub; one end is at this one. */
  predicate AtThisHub(m: Ibtp, bxhId: string) {
    Split(m.from, ':')[0] == bxhId || Split(m.to, ':')[0] == bxhId
  }

  /** The request is between two hubs and was recorded before. */
  predicate ComesBack(s: Store, m: Ibtp) {
    Split(m.from, ':')[0] != Split(m.to, ':')[0] && (m.from, m.to, m.index) in s.recorded
  }

  /** What is handled as a request: a request, unless it comes back with a rollback to report
      or with a proof that cannot be read. */
  predicate ActsAsRequest(s: Store, m: Ibtp) {
    m.category == Request && (ComesBack(s, m) ==> m.proof == OtherStatus)
  }

  predicate ActsAsReceipt(s: Store, m: Ibtp) {
    m.category == Response || (m.category == Request && ComesBack(s, m) && m.proof == RolledBack)
  }

  function OnIndex(next: nat, index: nat): Option<Reject> {
    if index == next then None else Some(if index < next then IndexExists else IndexWrong)
  }

  /** The answer to every request, and the reason where it is refused. */
  lemma CheckedRequest(s: Store, m: Ibtp, bxhId: string)
    requires ActsAsRequest(s, m)
    ensures Check(s, m, bxhId) ==
            if !WellFormed(m) then Some(ParseError)
            else if !AtThisHub(m, bxhId) then Some(NotInThisHub)
            else if !m.sourceAvailable then Some(SourceUnavailable)
            else if m.batch then None
            else OnIndex(TallyOf(s.services, m.from, m.to).sent + 1, m.index)
    ensures WellFormed(m) ==> IsRequest(s, m, bxhId)
  {
    hide Split, FullId;
    ParseFullId(m.from, bxhId);
    ParseFullId(m.to, bxhId);
  }

  /** The same for receipts. */
  lemma CheckedReceipt(s: Store, m: Ibtp, bxhId: string)
    requires ActsAsReceipt(s, m)
    ensures Check(s, m, bxhId) ==
            if !WellFormed(m) then Some(ParseError)
            else if !AtThisHub(m, bxhId) then Some(NotInThisHub)
            else OnIndex(TallyOf(s.services, m.from, m.to).returned + 1, m.index)
    ensures WellFormed(m) ==> !IsRequest(s, m, bxhId)
  {
    hide Split, FullId;
    ParseFullId(m.from, bxhId);
    ParseFullId(m.to, bxhId);
  }

  /** The id names a hub itself: its chain is its hub. */
  predicate NamesHub(id: Id) {
    var parts := Split(id, ':');
    |parts| > 1 && parts[1] == parts[0]
  }

  /** The services and records after a message, pair by pair. */
  ghost predicate Counts(s: Store, t: Store, m: Ibtp, request: bool) {
    && t.recorded == (if request then s.recorded + {(m.from, m.to, m.index)} else s.recorded)
    && forall f: Id, g: Id ::
         var c := TallyOf(s.services, f, g);
         TallyOf(t.services, f, g) ==
         if !OfPair(m, f, g) then c
         else if request then
           c.(sent := c.sent + 1, sentAtDest := if NamesHub(m.to) then c.sentAtDest else m.index)
         else if m.final then c.(returned := m.index, returnedAtDest := m.index)
         else c
  }

  /** A request is accepted exactly if its ids are well formed, one end is at this hub, the
      source is available, the transaction manager begins it, and it is batched or next in
      line.  It then moves the counters of its pair; otherwise nothing changes. */
  lemma RequestAcceptedIff(s: Store, m: Ibtp, bxhId: string)
    requires ActsAsRequest(s, m)
    ensures Accepts(s, m, bxhId) <==>
            && WellFormed(m) && AtThisHub(m, bxhId) && m.sourceAvailable && m.managed
            && (m.batch || m.index == TallyOf(s.services, m.from, m.to).sent + 1)
    ensures if Accepts(s, m, bxhId) then Counts(s, Handle(s, m, bxhId), m, true) else Handle(s, m, bxhId) == s
  {
    hide TallyOf, Split, ProcessRequest, ProcessReceipt, Check;
    CheckedRequest(s, m, bxhId);
    if Accepts(s, m, bxhId) {
      forall f: Id, g: Id { RequestTally(s.services, m, ForHub(m, bxhId), f, g); }
    }
  }

  /** A receipt is accepted exactly if its ids are well formed, one end is at this hub, the
      transaction manager takes it, and it is next in line. */
  lemma ReceiptAcceptedIff(s: Store, m: Ibtp, bxhId: string)
    requires ActsAsReceipt(s, m)
    ensures Accepts(s, m, bxhId) <==>
            && WellFormed(m) && AtThisHub(m, bxhId) && m.managed
            && m.index == TallyOf(s.services, m.from, m.to).returned + 1
    ensures if Accepts(s, m, bxhId) then Counts(s, Handle(s, m, bxhId), m, false) else Handle(s, m, bxhId) == s
  {
    hide TallyOf, Split, ProcessRequest, ProcessReceipt, Check;
    CheckedReceipt(s, m, bxhId);
    if Accepts(s, m, bxhId) {
      forall f: Id, g: Id { ReceiptTally(s.services, m, f, g); }
    }
  }

  /** Nothing else is accepted. */
  lemma OthersRejected(s: Store, m: Ibtp, bxhId: string)
    requires !ActsAsRequest(s, m) && !ActsAsReceipt(s, m)
    ensures !Accepts(s, m, bxhId) && Handle(s, m, bxhId) == s
  {
    hide Split;
  }

  // ---- progress ----------------------------------------------------------------------------------------

  /** A request that can be begun between an available source and an ordered destination. */
  predicate Ready(m: Ibtp, bxhId: string) {
    && m.category == Request && WellFormed(m) && AtThisHub(m, bxhId) && m.sourceAvailable && m.managed
    && OrderedMessage(m, bxhId)
  }

  /** The next request of a pair is accepted and moves both request counters. */
  lemma NextAccepted(t: Trace, m: Ibtp, bxhId: string)
    requires PairOk(t, m.from, m.to) && Ready(m, bxhId)
    requires m.index == TallyOf(t.store.services, m.from, m.to).sent + 1
    ensures Accepts(t.store, m, bxhId) && PairOk(Step(t, m, bxhId, m.from, m.to), m.from, m.to)
    ensures var c := TallyOf(t.store.services, m.from, m.to);
            var u := Step(t, m, bxhId, m.from, m.to);
            && u.requests == t.requests + [m.index] && u.receipts == t.receipts
            && TallyOf(u.store.services, m.from, m.to) == c.(sent := c.sent + 1, sentAtDest := c.sent + 1)
  {
    hide TallyOf, Split, ProcessRequest, ProcessReceipt, Check, UpTo, InOrder;
    assert (m.from, m.to, m.index) !in t.store.recorded;
    CheckedRequest(t.store, m, bxhId);
    RequestStep(t, m, bxhId);
    RequestTally(t.store.services, m, ForHub(m, bxhId), m.from, m.to);
  }

  /** The next receipt of a pair that has requests left to answer is accepted, and once it is
      final moves both receipt counters. */
  lemma NextReceipt(t: Trace, m: Ibtp, bxhId: string)
    requires PairOk(t, m.from, m.to) && m.category == Response && WellFormed(m) && AtThisHub(m, bxhId) && m.managed
    requires var c := TallyOf(t.store.services, m.from, m.to); m.index == c.returned + 1 <= c.sent
    ensures Accepts(t.store, m, bxhId) && PairOk(Step(t, m, bxhId, m.from, m.to), m.from, m.to)
    ensures var c := TallyOf(t.store.services, m.from, m.to);
            var u := Step(t, m, bxhId, m.from, m.to);
            && u.receipts == t.receipts + [m.index]
            && TallyOf(u.store.services, m.from, m.to) ==
               if m.final then c.(returned := c.returned + 1, returnedAtDest := c.returned + 1) else c
  {
    hide TallyOf, Split, ProcessRequest, ProcessReceipt, Check, UpTo, InOrder;
    CheckedReceipt(t.store, m, bxhId);
    ReceiptStep(t, m, bxhId);
    ReceiptTally(t.store.services, m, m.from, m.to);
  }

  /** The requests of a pair, one after the other, are all accepted. */
  lemma {:induction false} AllAccepted(t: Trace, ms: seq<Ibtp>, bxhId: string, from: Id, to: Id)
    requires PairOk(t, from, to)
    requires forall i | 0 <= i < |ms| ::
               OfPair(ms[i], from, to) && Ready(ms[i], bxhId)
               && ms[i].index == TallyOf(t.store.services, from, to).sent + 1 + i
    ensures var u := Run(t, ms, bxhId, from, to);
            && PairOk(u, from, to) && u.receipts == t.receipts
            && TallyOf(u.store.services, from, to).sent == TallyOf(t.store.services, from, to).sent + |ms|
    decreases |ms|
  {
    hide PairOk, TallyOf, Step, Ready;
    if ms != [] {
      NextAccepted(t, ms[0], bxhId);
      AllAccepted(Step(t, ms[0], bxhId, from, to), ms[1..], bxhId, from, to);
    }
  }

  // ---- every pair, ordered or not ----------------------------------------------------------------------

  predicate Counted(t: Trace, from: Id, to: Id) {
    |t.requests| == TallyOf(t.store.services, from, to).sent
  }

  lemma CountedStep(t: Trace, m: Ibtp, bxhId: string, from: Id, to: Id)
    requires Counted(t, from, to)
    ensures Counted(Step(t, m, bxhId, from, to), from, to)
  {
    hide ProcessRequest, ProcessReceipt, TallyOf, Accepts, IsRequest;
    RequestTally(t.store.services, m, ForHub(m, bxhId), from, to);
    ReceiptTally(t.store.services, m, from, to);
  }

  /** The request counter of any pair is the number of requests accepted for it. */
  lemma {:induction false} CountedAlways(t: Trace, ms: seq<Ibtp>, bxhId: string, from: Id, to: Id)
    requires Counted(t, from, to)
    ensures Counted(Run(t, ms, bxhId, from, to), from, to)
    decreases |ms|
  {
    hide Counted, Step;
    if ms != [] {
      CountedStep(t, ms[0], bxhId, from, to);
      CountedAlways(Step(t, ms[0], bxhId, from, to), ms[1..], bxhId, from, to);
    }
  }

  /** When a request is accepted twice in a row: exactly when the destination is unordered,
      since an ordered destination has moved its counter on. */
  lemma RepeatIff(s: Store, m: Ibtp, bxhId: string)
    requires IsRequest(s, m, bxhId) && Accepts(s, m, bxhId)
    requires CrossHub(m, bxhId) ==> m.proof == OtherStatus
    ensures Accepts(Handle(s, m, bxhId), m, bxhId) <==> m.batch
  {
    hide ProcessRequest, TallyOf, ForHub;
    CheckedIndex(s, m, bxhId);
    RequestTally(s.services, m, ForHub(m, bxhId), m.from, m.to);
    var t := Handle(s, m, bxhId);
    if !m.batch && Check(t, m, bxhId).None? {
      CheckedIndex(t, m, bxhId);
      assert false;
    }
  }

  /** The counters that are stored first are overwritten at once. */
  lemma ReturnedOver(services: map<Id, Counters>, from: Id, to: Id, index: nat, c: Counters)
    ensures var s := services[from := c.(receipt := c.receipt[to := index])];
            var d := Service(s, to);
            Returned(services[from := c], from, to, index) ==
            s[to := d.(sourceReceipt := d.sourceReceipt[from := index])]
  {
    var put := c.(receipt := c.receipt[to := index]);
    assert services[from := c][from := put] == services[from := put];
  }

  /** Storing the counters that a service has anyway changes nothing. */
  lemma StoredAgain(services: map<Id, Counters>, from: Id, to: Id, index: nat)
    ensures Returned(services[from := Service(services, from)], from, to, index) == Returned(services, from, to, index)
  {
  }

  // ---- the contract object -------------------------------------------------------------------------------

  class InterchainManager {
    var bxhId: string
    var services: map<Id, Counters>
    var recorded: set<(Id, Id, nat)>

    function State(): Store
      reads this
    {
      Store(services, recorded)
    }

    /** The counters that the caller holds for the source are stored, and then the receipt
        counters of the pair are set at both ends. */
    method SetDestInterchain(from: Id, to: Id, index: nat, interchain: Counters)
      modifies this`services
      ensures services == Returned(old(services)[from := interchain], from, to, index)
      ensures ReceiptCounted(old(services)[from := interchain], services, from, to, index)
    {
      hide ReceiptCounted, Returned;
      ReturnedOver(services, from, to, index, interchain);
      ReturnedCounts(services[from := interchain], from, to, index);
      services := services[from := interchain.(receipt := interchain.receipt[to := index])];
      var ic := Service(services, to);
      services := services[to := ic.(sourceReceipt := ic.sourceReceipt[from := index])];
    }

    method ProcessIBTP(m: Ibtp, interchain: Counters)
      requires interchain == Service(services, m.from)
      modifies this`services, this`recorded
      ensures IsRequest(old(State()), m, bxhId) ==>
              && services == ProcessRequest(old(services), m, ForHub(m, bxhId))
              && recorded == old(recorded) + {(m.from, m.to, m.index)}
      ensures !IsRequest(old(State()), m, bxhId) ==>
              services == ProcessReceipt(old(services), m) && recorded == old(recorded)
    {
      if IsRequest(State(), m, bxhId) {
        var counter := interchain.interchain[m.to := Get(interchain.interchain, m.to) + 1];
        services := services[m.from := interchain.(interchain := counter)];
        recorded := recorded + {(m.from, m.to, m.index)};
        if ForHub(m, bxhId) {
          return;
        }
        var ic := Service(services, m.to);
        services := services[m.to := ic.(sourceInterchain := ic.sourceInterchain[m.from := m.index])];
      } else if m.final {
        StoredAgain(services, m.from, m.to, m.index);
        SetDestInterchain(m.from, m.to, m.index, interchain);
      }
    }

    /** One call takes the store one step of `Handle`, and what is rejected leaves no trace. */
    method HandleIBTP(m: Ibtp) returns (rejected: Option<Reject>)
      modifies this`services, this`recorded
      ensures State() == Handle(old(State()), m, bxhId)
      ensures rejected.None? <==> Accepts(old(State()), m, bxhId)
      ensures Check(old(State()), m, bxhId).Some? ==> rejected == Check(old(State()), m, bxhId)
    {
      rejected := Check(State(), m, bxhId);
      if rejected.Some? {
        return;
      }
      if m.category == Unknown || !m.managed {
        return Some(ManagerError);
      }
      ParseFullId(m.from, bxhId);
      var interchain := Service(services, FullId(Parse(m.from, bxhId).value));
      ProcessIBTP(m, interchain);
      rejected := None;
    }
  }
}
