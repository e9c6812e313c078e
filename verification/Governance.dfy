/** The proposal store of governance.go: proposals, their ordered indices, and locking. */
module Governance {
  import opened GoBytes
  import opened GoStrings
  import opened Voting
  import Strategy

  const ROLE_MGR := "role_mgr"
  const PROPOSAL_STRATEGY_MGR := "proposal_strategy_mgr"

  /** The priorities of events; an event without one counts as zero. */
  function Priority(e: Event): nat {
    match e
    case Register => 1
    case Update => 2
    case Freeze => 2
    case Activate => 1
    case Bind => 1
    case Unbind => 1
    case Logout => 3
    case Pause => 3
    case Unpause => 1
    case Clear => 3
    case Approve => 0
    case Reject => 0
  }

  predicate IsSpecial(typ: string, event: Event) {
    typ in {ROLE_MGR, PROPOSAL_STRATEGY_MGR} || event in {Freeze, Activate, Logout}
  }

  // ---- ordered indices -----------------------------------------------------------------------------

  /** An index maps a key to the ids under it, in order of insertion. */
  type Index<K> = map<K, seq<Id>>

  function At<K>(index: Index<K>, key: K): seq<Id> {
    if key in index then index[key] else []
  }

  /** `proMap.Set` and store. */
  function Insert<K>(index: Index<K>, key: K, id: Id): Index<K> {
    index[key := if id in At(index, key) then At(index, key) else At(index, key) + [id]]
  }

  /** `proMap.Delete` and store. */
  function Remove<K>(index: Index<K>, key: K, id: Id): Index<K> {
    index[key := Without(At(index, key), id)]
  }

  // ---- the store -----------------------------------------------------------------------------------

  type Proposals = map<Id, Proposal>

  datatype Gov = Gov(
    proposals: Proposals,
    byFrom: Index<string>, byObj: Index<string>, byTyp: Index<string>, byStatus: Index<ProposalStatus>)

  const NO_PROPOSALS := Gov(map[], map[], map[], map[], map[])

  function FromOf(id: Id): string {
    Split(id, '-')[0]
  }

  function MakeId(from: string, n: nat): Id {
    from + "-" + Itoa(n)
  }

  function AddProposal(g: Gov, p: Proposal): Gov {
    Gov(g.proposals[p.id := p],
        Insert(g.byFrom, FromOf(p.id), p.id), Insert(g.byObj, p.objId, p.id),
        Insert(g.byTyp, p.typ, p.id), Insert(g.byStatus, p.status, p.id))
  }

  /** `SetObject` on a proposal. */
  function Put(g: Gov, p: Proposal): Gov {
    g.(proposals := g.proposals[p.id := p])
  }

  function ChangeProposalStatus(g: Gov, p: Proposal, status: ProposalStatus): Gov {
    g.(proposals := g.proposals[p.id := p.(status := status)],
       byStatus := Insert(Remove(g.byStatus, p.status, p.id), status, p.id))
  }

  predicate Lockable(ps: Proposals, id: Id, event: Event) {
    id in ps && ps[id].status == Proposed && Priority(ps[id].event) < Priority(event)
  }

  function FindLockable(ps: Proposals, ids: seq<Id>, event: Event): (r: Option<Id>)
    ensures r.Some? ==> r.value in ids && Lockable(ps, r.value, event)
    ensures r.None? ==> forall id | id in ids :: !Lockable(ps, id, event)
  {
    if ids == [] then None
    else if Lockable(ps, ids[0], event) then Some(ids[0])
    else FindLockable(ps, ids[1..], event)
  }

  function LockLowPriorityProposal(g: Gov, objId: string, event: Event): (Gov, Option<Id>) {
    match FindLockable(g.proposals, At(g.byObj, objId), event)
    case None => (g, None)
    case Some(id) => (ChangeProposalStatus(g, g.proposals[id], Paused), Some(id))
  }

  /** What a manager contract asks of `SubmitProposal`, and what the electorate and the
      strategy are at that time. */
  datatype Submission = Submission(
    from: string, event: Event, typ: string, objId: string, objLast: ObjStatus,
    electorate: seq<Elector>, strategy: Strategy.Expr)

  function InitialThreshold(s: Submission): Option<nat> {
    Strategy.Threshold(s.strategy, 0, 0, |s.electorate|, |s.electorate|)
  }

  function NewProposal(s: Submission, id: Id, threshold: nat, lock: Option<Id>): Proposal {
    Proposal(id, s.typ, Proposed, s.objId, s.objLast, map[], 0, 0, s.electorate,
             |s.electorate|, |s.electorate|, threshold, s.event, lock, IsSpecial(s.typ, s.event), false, s.strategy)
  }

  predicate AllPresent(ps: Proposals, ids: seq<Id>) {
    forall i | 0 <= i < |ids| :: ids[i] in ps
  }

  /** `SubmitProposal`: the new store and the id of the proposal, or an error. */
  function SubmitProposal(g: Gov, s: Submission): Option<(Gov, Id)> {
    var threshold := InitialThreshold(s);
    if !AllPresent(g.proposals, At(g.byFrom, s.from)) || !AllPresent(g.proposals, At(g.byObj, s.objId))
    then None
    else if threshold.None? then None
    else
      var (locked, lock) := LockLowPriorityProposal(g, s.objId, s.event);
      var id := MakeId(s.from, |At(g.byFrom, s.from)|);
      Some((AddProposal(locked, NewProposal(s, id, threshold.value, lock)), id))
  }

  /** A vote as the store sees it: the ballot is stored, then the status moves. */
  function CastBallot(g: Gov, id: Id, addr: Address, choice: Choice): Gov {
    if id !in g.proposals then g
    else
      match SetVote(g.proposals[id], addr, choice)
      case Refused(_) => g
      case Voted(q) =>
        match CountVote(q)
        case None => g
        case Some(status) =>
          if status == q.status then Put(g, q) else ChangeProposalStatus(Put(g, q), q, status)
  }

  // ---- what every operation keeps --------------------------------------------------------------------

  /** An id is listed under a key, once, just when its proposal has that key. */
  ghost predicate Indexed<K(!new)>(index: Index<K>, ps: Proposals, key: Proposal -> K) {
    && (forall k: K, id: Id :: id in At(index, k) <==> id in ps && key(ps[id]) == k)
    && (forall k: K :: Distinct(At(index, k)))
  }

  function ObjKey(p: Proposal): string { p.objId }

  function TypKey(p: Proposal): string { p.typ }

  function StatusKey(p: Proposal): ProposalStatus { p.status }

  function FromKey(p: Proposal): string { FromOf(p.id) }

  predicate Keyed(ps: Proposals) {
    forall id | id in ps :: ps[id].id == id
  }

  /** Ids are numbered by sender, below the number of proposals the sender made. */
  ghost predicate Numbered(g: Gov) {
    forall id | id in g.proposals ::
      exists n: nat :: n < |At(g.byFrom, FromOf(id))| && id == MakeId(FromOf(id), n)
  }

  /** A lock points to a proposal on the same object with a strictly lower priority. */
  predicate LockOk(ps: Proposals, id: Id)
    requires id in ps
  {
    var p := ps[id];
    p.lock.Some? ==>
      && p.lock.value in ps
      && ps[p.lock.value].objId == p.objId
      && Priority(ps[p.lock.value].event) < Priority(p.event)
  }

  predicate Locks(ps: Proposals) {
    forall id | id in ps :: LockOk(ps, id)
  }

  predicate Tallied(ps: Proposals) {
    forall id | id in ps :: TalliesOk(ps[id])
  }

  ghost predicate IndexOk(g: Gov) {
    && Indexed(g.byFrom, g.proposals, FromKey) && Indexed(g.byObj, g.proposals, ObjKey)
    && Indexed(g.byTyp, g.proposals, TypKey) && Indexed(g.byStatus, g.proposals, StatusKey)
  }

  ghost predicate GovOk(g: Gov) {
    && Keyed(g.proposals) && IndexOk(g) && Numbered(g) && Locks(g.proposals) && Tallied(g.proposals)
  }

  // ---- indices ----------------------------------------------------------------------------------------

  lemma InsertIndexed<K(!new)>(index: Index<K>, ps: Proposals, key: Proposal -> K, p: Proposal)
    requires Indexed(index, ps, key) && p.id !in ps
    ensures Indexed(Insert(index, key(p), p.id), ps[p.id := p], key)
  {
    var after := Insert(index, key(p), p.id);
    assert p.id !in At(index, key(p));
    assert forall k: K :: At(after, k) == if k == key(p) then At(index, k) + [p.id] else At(index, k);
    assert forall id: Id :: id in At(index, key(p)) + [p.id] <==> id in At(index, key(p)) || id == p.id;
  }

  lemma PutIndexed<K(!new)>(index: Index<K>, ps: Proposals, key: Proposal -> K, p: Proposal)
    requires Indexed(index, ps, key) && p.id in ps && key(p) == key(ps[p.id])
    ensures Indexed(index, ps[p.id := p], key)
  {
  }

  lemma RemoveIndexed<K(!new)>(index: Index<K>, ps: Proposals, key: Proposal -> K, id: Id)
    requires Indexed(index, ps, key) && id in ps
    ensures Indexed(Remove(index, key(ps[id]), id), ps - {id}, key)
  {
    var k0 := key(ps[id]);
    WithoutContents(At(index, k0), id);
    WithoutDistinct(At(index, k0), id);
    assert forall k: K :: At(Remove(index, k0, id), k) == if k == k0 then Without(At(index, k), id) else At(index, k);
  }

  lemma MoveIndexed(index: Index<ProposalStatus>, ps: Proposals, p: Proposal, status: ProposalStatus)
    requires Indexed(index, ps, StatusKey) && p.id in ps && ps[p.id].status == p.status
    ensures Indexed(Insert(Remove(index, p.status, p.id), status, p.id), ps[p.id := p.(status := status)], StatusKey)
  {
    hide Indexed, Insert, Remove;
    var q := p.(status := status);
    RemoveIndexed(index, ps, StatusKey, p.id);
    InsertIndexed(Remove(index, p.status, p.id), ps - {p.id}, StatusKey, q);
    assert (ps - {p.id})[p.id := q] == ps[p.id := q];
  }

  /** In a consistent store a proposal is in exactly one status index, that of its status. */
  lemma OneStatusIndex(g: Gov, id: Id, status: ProposalStatus)
    requires IndexOk(g) && id in g.proposals
    ensures id in At(g.byStatus, status) <==> g.proposals[id].status == status
    ensures id in At(g.byFrom, FromOf(g.proposals[id].id))
    ensures id in At(g.byObj, g.proposals[id].objId) && id in At(g.byTyp, g.proposals[id].typ)
  {
    var p := g.proposals[id];
    assert FromKey(p) == FromOf(p.id) && ObjKey(p) == p.objId && TypKey(p) == p.typ && StatusKey(p) == p.status;
  }

  // ---- ids ---------------------------------------------------------------------------------------------

  lemma FromOfMakeId(from: string, n: nat)
    requires SepFree(from, '-')
    ensures FromOf(MakeId(from, n)) == from
  {
    SplitFirst(from, Itoa(n), '-');
    assert MakeId(from, n) == from + ['-'] + Itoa(n);
  }

  lemma MakeIdInjective(from: string, m: nat, n: nat)
    requires MakeId(from, m) == MakeId(from, n)
    ensures m == n
  {
    assert MakeId(from, m)[|from| + 1..] == Itoa(m) && MakeId(from, n)[|from| + 1..] == Itoa(n);
    AtoiItoa(m);
    AtoiItoa(n);
  }

  /** The id given to a new proposal is not in use. */
  lemma FreshId(g: Gov, from: string)
    requires Numbered(g) && SepFree(from, '-')
    ensures MakeId(from, |At(g.byFrom, from)|) !in g.proposals
  {
    var n := |At(g.byFrom, from)|;
    FromOfMakeId(from, n);
    if MakeId(from, n) in g.proposals {
      var m: nat :| m < n && MakeId(from, n) == MakeId(from, m);
      MakeIdInjective(from, m, n);
      assert false;
    }
  }

  // ---- steps -------------------------------------------------------------------------------------------

  /** What a proposal keeps for life. */
  predicate SameProposal(p: Proposal, q: Proposal) {
    && p.id == q.id && p.typ == q.typ && p.objId == q.objId && p.event == q.event
    && p.lock == q.lock && p.objLast == q.objLast
  }

  lemma PutStep(g: Gov, p: Proposal)
    requires GovOk(g) && p.id in g.proposals && SameProposal(g.proposals[p.id], p)
    requires p.status == g.proposals[p.id].status && TalliesOk(p)
    ensures GovOk(Put(g, p))
  {
    hide Indexed, TalliesOk, FromOf, Locks;
    PutLocks(g.proposals, p);
    PutIndexed(g.byFrom, g.proposals, FromKey, p);
    PutIndexed(g.byObj, g.proposals, ObjKey, p);
    PutIndexed(g.byTyp, g.proposals, TypKey, p);
    PutIndexed(g.byStatus, g.proposals, StatusKey, p);
  }

  lemma ChangeStatusStep(g: Gov, id: Id, status: ProposalStatus)
    requires GovOk(g) && id in g.proposals
    ensures GovOk(ChangeProposalStatus(g, g.proposals[id], status))
  {
    hide Indexed, TalliesOk, FromOf, Insert, Remove, Locks;
    PutLocks(g.proposals, g.proposals[id].(status := status));
    var p := g.proposals[id];
    var q := p.(status := status);
    SameTallies(p, q);
    PutIndexed(g.byFrom, g.proposals, FromKey, q);
    PutIndexed(g.byObj, g.proposals, ObjKey, q);
    PutIndexed(g.byTyp, g.proposals, TypKey, q);
    MoveIndexed(g.byStatus, g.proposals, p, status);
  }

  lemma InsertGrows<K>(index: Index<K>, key: K, k: K, id: Id)
    ensures |At(Insert(index, key, id), k)| >= |At(index, k)|
    ensures id !in At(index, key) ==> |At(Insert(index, key, id), key)| == |At(index, key)| + 1
  {
  }

  lemma AddNumbered(g: Gov, p: Proposal, n: nat)
    requires Numbered(g) && Indexed(g.byFrom, g.proposals, FromKey) && p.id !in g.proposals
    requires p.id == MakeId(FromOf(p.id), n) && n == |At(g.byFrom, FromOf(p.id))|
    ensures Numbered(AddProposal(g, p))
  {
    var h := AddProposal(g, p);
    forall id | id in h.proposals
      ensures exists m: nat :: m < |At(h.byFrom, FromOf(id))| && id == MakeId(FromOf(id), m)
    {
      InsertGrows(g.byFrom, FromOf(p.id), FromOf(id), p.id);
      if id == p.id {
        assert n < |At(h.byFrom, FromOf(id))|;
      } else {
        var m: nat :| m < |At(g.byFrom, FromOf(id))| && id == MakeId(FromOf(id), m);
        assert m < |At(h.byFrom, FromOf(id))|;
      }
    }
  }

  lemma IndexedByFrom(g: Gov)
    requires IndexOk(g)
    ensures Indexed(g.byFrom, g.proposals, FromKey)
  {
  }

  lemma AddIndices(g: Gov, p: Proposal)
    requires IndexOk(g) && p.id !in g.proposals
    ensures IndexOk(AddProposal(g, p))
  {
    hide Indexed, Insert, FromOf;
    InsertIndexed(g.byFrom, g.proposals, FromKey, p);
    InsertIndexed(g.byObj, g.proposals, ObjKey, p);
    InsertIndexed(g.byTyp, g.proposals, TypKey, p);
    InsertIndexed(g.byStatus, g.proposals, StatusKey, p);
  }

  lemma AddLocks(ps: Proposals, p: Proposal)
    requires Locks(ps) && p.id !in ps
    requires p.lock.Some? ==>
             && p.lock.value in ps && ps[p.lock.value].objId == p.objId
             && Priority(ps[p.lock.value].event) < Priority(p.event)
    ensures Locks(ps[p.id := p])
  {
    hide Priority;
    var after := ps[p.id := p];
    forall id | id in after
      ensures LockOk(after, id)
    {
      assert id != p.id ==> LockOk(ps, id);
    }
  }

  lemma PutLocks(ps: Proposals, p: Proposal)
    requires Locks(ps) && p.id in ps && SameProposal(ps[p.id], p)
    ensures Locks(ps[p.id := p])
  {
    hide Priority;
    var after := ps[p.id := p];
    forall id | id in after
      ensures LockOk(after, id)
    {
      assert LockOk(ps, id);
    }
  }

  lemma AddStep(g: Gov, p: Proposal, n: nat)
    requires GovOk(g) && p.id !in g.proposals && TalliesOk(p)
    requires p.id == MakeId(FromOf(p.id), n) && n == |At(g.byFrom, FromOf(p.id))|
    requires p.lock.Some? ==>
             && p.lock.value in g.proposals && g.proposals[p.lock.value].objId == p.objId
             && Priority(g.proposals[p.lock.value].event) < Priority(p.event)
    ensures GovOk(AddProposal(g, p))
  {
    hide Indexed, TalliesOk, FromOf, Insert, Numbered, Locks, IndexOk, Priority, MakeId;
    assert Indexed(g.byFrom, g.proposals, FromKey) by { IndexedByFrom(g); }
    AddIndices(g, p);
    AddNumbered(g, p, n);
    AddLocks(g.proposals, p);
  }

  lemma NewTallies(s: Submission, id: Id, threshold: nat, lock: Option<Id>)
    requires |s.electorate| < UINT64
    ensures TalliesOk(NewProposal(s, id, threshold, lock))
  {
    var p := NewProposal(s, id, threshold, lock);
    assert Voters(p.ballots, true) == {} && Voters(p.ballots, false) == {};
  }

  lemma LockStep(g: Gov, objId: string, event: Event)
    requires GovOk(g)
    ensures var (h, lock) := LockLowPriorityProposal(g, objId, event);
            && GovOk(h) && h.byFrom == g.byFrom && h.byObj == g.byObj && h.proposals.Keys == g.proposals.Keys
            && (lock.Some? ==> lock.value in g.proposals && g.proposals[lock.value].objId == objId
                               && Priority(g.proposals[lock.value].event) < Priority(event)
                               && h.proposals == g.proposals[lock.value := g.proposals[lock.value].(status := Paused)])
            && (lock.None? ==> h == g)
  {
    hide TalliesOk, Numbered, FromOf, Locks, Insert, Remove;
    var found := FindLockable(g.proposals, At(g.byObj, objId), event);
    if found.Some? {
      assert ObjKey(g.proposals[found.value]) == objId;
      ChangeStatusStep(g, found.value, Paused);
    }
  }

  /** Which open proposals give way: all but logout, pause and clear to one of these, the
      lesser events to a freeze or an update, and to the lesser events only what has no
      priority at all. */
  lemma LockableIff(ps: Proposals, id: Id, event: Event)
    ensures Lockable(ps, id, event) <==>
            && id in ps && ps[id].status == Proposed
            && var e := ps[id].event;
               match event
               case Logout => e !in {Logout, Pause, Clear}
               case Pause => e !in {Logout, Pause, Clear}
               case Clear => e !in {Logout, Pause, Clear}
               case Freeze => e !in {Logout, Pause, Clear, Freeze, Update}
               case Update => e !in {Logout, Pause, Clear, Freeze, Update}
               case Approve => false
               case Reject => false
               case _ => e in {Approve, Reject}
  {
  }

  function Lockee(g: Gov, x: string, event: Event): Option<Id> {
    FindLockable(g.proposals, At(g.byObj, x), event)
  }

  function AfterLock(g: Gov, x: string, event: Event): Proposals {
    match Lockee(g, x, event)
    case None => g.proposals
    case Some(lock) => g.proposals[lock := g.proposals[lock].(status := Paused)]
  }

  lemma SubmitResult(g: Gov, sub: Submission)
    requires Keyed(g.proposals) && SubmitProposal(g, sub).Some?
    ensures var (h, id) := SubmitProposal(g, sub).value;
            var p := NewProposal(sub, id, InitialThreshold(sub).value, Lockee(g, sub.objId, sub.event));
            h.proposals == AfterLock(g, sub.objId, sub.event)[id := p]
  {
    hide Strategy.Threshold, Insert, Remove, MakeId, FromOf, FindLockable, IsSpecial;
  }

  /** What an accepted submission stores: one new open proposal without ballots under the next
      id of its sender, and the proposal it locked as paused. */
  lemma SubmitOutcome(g: Gov, s: Submission)
    requires GovOk(g) && SepFree(s.from, '-') && |s.electorate| < UINT64 && SubmitProposal(g, s).Some?
    ensures var (h, id) := SubmitProposal(g, s).value;
            && id == s.from + "-" + Itoa(|At(g.byFrom, s.from)|)
            && id in h.proposals && NewlyOpen(h.proposals[id], s) && h.proposals[id].id == id
            && var lock := h.proposals[id].lock;
               && LocksOpen(g.proposals, s.objId, s.event, lock)
               && h.proposals.Keys == g.proposals.Keys + {id}
               && forall j | j in g.proposals ::
                    h.proposals[j] == if lock == Some(j) then g.proposals[j].(status := Paused) else g.proposals[j]
  {
    hide GovOk, SubmitProposal, Lockee, NewlyOpen, InitialThreshold, FromOf;
    var (h, id) := SubmitProposal(g, s).value;
    SubmitStep(g, s);
    assert Keyed(g.proposals) by { IsKeyed(g); }
    SubmitResult(g, s);
    SubmitId(g, s);
    LockeeOpen(g, s.objId, s.event);
    StoredThreshold(s, id, h.proposals[id]);
  }

  /** The lock is an open proposal about the object that gives way, or there is none. */
  predicate LocksOpen(ps: Proposals, objId: string, event: Event, lock: Option<Id>) {
    match lock
    case Some(j) => Lockable(ps, j, event) && ps[j].objId == objId
    case None => forall j | j in ps && ps[j].objId == objId :: !Lockable(ps, j, event)
  }

  lemma IsKeyed(g: Gov)
    requires GovOk(g)
    ensures Keyed(g.proposals)
  {
  }

  lemma SubmitId(g: Gov, s: Submission)
    requires SubmitProposal(g, s).Some?
    ensures SubmitProposal(g, s).value.1 == MakeId(s.from, |At(g.byFrom, s.from)|)
  {
    hide LockLowPriorityProposal, AddProposal, InitialThreshold, MakeId;
  }

  lemma LockeeOpen(g: Gov, objId: string, event: Event)
    requires GovOk(g)
    ensures LocksOpen(g.proposals, objId, event, Lockee(g, objId, event))
  {
    hide Numbered, Locks, Tallied, Priority, Keyed;
    assert Indexed(g.byObj, g.proposals, ObjKey);
    forall j | j in g.proposals
      ensures g.proposals[j].objId == objId <==> j in At(g.byObj, objId)
    {
      assert ObjKey(g.proposals[j]) == g.proposals[j].objId;
    }
  }

  /** A proposal as it is submitted: special if it is about roles or strategies, or freezes,
      activates or logs out. */
  ghost predicate NewlyOpen(p: Proposal, s: Submission) {
    && p.status == Proposed && p.typ == s.typ && p.event == s.event && p.objId == s.objId && p.objLast == s.objLast
    && p.ballots == map[] && p.approveNum == 0 && p.againstNum == 0 && !p.superVoted
    && p.electorate == s.electorate && p.initialNum == p.availableNum == |s.electorate| && p.strategy == s.strategy
    && Strategy.IsLeast(s.strategy, 0, 0, |s.electorate|, |s.electorate|, p.thresholdNum)
    && (p.special <==> s.typ == "role_mgr" || s.typ == "proposal_strategy_mgr"
                       || s.event == Freeze || s.event == Activate || s.event == Logout)
  }

  lemma StoredThreshold(s: Submission, id: Id, p: Proposal)
    requires InitialThreshold(s).Some? && p == NewProposal(s, id, InitialThreshold(s).value, p.lock)
    ensures NewlyOpen(p, s)
  {
    var n := |s.electorate|;
    Strategy.ThresholdIff(s.strategy, 0, 0, n, n, p.thresholdNum);
  }

  lemma PresentAt(g: Gov, from: string, objId: string)
    requires IndexOk(g)
    ensures AllPresent(g.proposals, At(g.byFrom, from)) && AllPresent(g.proposals, At(g.byObj, objId))
  {
    assert forall i | 0 <= i < |At(g.byFrom, from)| :: At(g.byFrom, from)[i] in At(g.byFrom, from);
    assert forall i | 0 <= i < |At(g.byObj, objId)| :: At(g.byObj, objId)[i] in At(g.byObj, objId);
  }

  /** A submission is refused only for want of a threshold; it gets an unused id. */
  lemma SubmitStep(g: Gov, s: Submission)
    requires GovOk(g) && SepFree(s.from, '-') && |s.electorate| < UINT64
    ensures SubmitProposal(g, s).Some? <==> InitialThreshold(s).Some?
    ensures SubmitProposal(g, s).Some? ==>
            var (h, id) := SubmitProposal(g, s).value;
            GovOk(h) && id !in g.proposals && h.proposals.Keys == g.proposals.Keys + {id}
  {
    hide TalliesOk, FromOf, Locks, Insert, Remove, Strategy.Threshold, Indexed, LockLowPriorityProposal,
      Numbered, MakeId;
    PresentAt(g, s.from, s.objId);
    if InitialThreshold(s).Some? {
      var (locked, lock) := LockLowPriorityProposal(g, s.objId, s.event);
      LockStep(g, s.objId, s.event);
      var n := |At(g.byFrom, s.from)|;
      FreshId(g, s.from);
      FromOfMakeId(s.from, n);
      var p := NewProposal(s, MakeId(s.from, n), InitialThreshold(s).value, lock);
      NewTallies(s, p.id, p.thresholdNum, lock);
      AddStep(locked, p, n);
    }
  }

  lemma SetVoteFrame(p: Proposal, addr: Address, choice: Choice)
    requires TalliesOk(p) && SetVote(p, addr, choice).Voted?
    ensures var q := SetVote(p, addr, choice).p; SameProposal(p, q) && q.status == p.status && TalliesOk(q)
  {
    hide Strategy.Threshold, TalliesOk;
    var e := FindElector(p.electorate, addr).value;
    var q := WithBallot(p, e, choice == For);
    BallotCounted(p, e, choice == For);
    SameTallies(q, SetVote(p, addr, choice).p);
  }

  lemma BallotStep(g: Gov, id: Id, addr: Address, choice: Choice)
    requires GovOk(g)
    ensures GovOk(CastBallot(g, id, addr, choice))
  {
    hide TalliesOk, SetVote, CountVote, ChangeProposalStatus, IndexOk, Numbered, Locks;
    if id in g.proposals && SetVote(g.proposals[id], addr, choice).Voted? {
      SetVoteFrame(g.proposals[id], addr, choice);
      var q := SetVote(g.proposals[id], addr, choice).p;
      PutStep(g, q);
      if CountVote(q).Some? {
        ChangeStatusStep(Put(g, q), id, CountVote(q).value);
      }
    }
  }

  // ---- runs ----------------------------------------------------------------------------------------------

  datatype GovOp =
    | Submit(s: Submission)
    | Ballots(id: Id, addr: Address, choice: Choice)
    | SetStatus(id: Id, status: ProposalStatus)

  /** Senders are account addresses, which hold no dash. */
  predicate LegalOp(op: GovOp) {
    op.Submit? ==> SepFree(op.s.from, '-') && |op.s.electorate| < UINT64
  }

  function GovApply(g: Gov, op: GovOp): Gov {
    match op
    case Submit(s) => (match SubmitProposal(g, s) case None => g case Some(r) => r.0)
    case Ballots(id, addr, choice) => CastBallot(g, id, addr, choice)
    case SetStatus(id, status) =>
      if id in g.proposals then ChangeProposalStatus(g, g.proposals[id], status) else g
  }

  function GovRun(g: Gov, ops: seq<GovOp>): Gov
    decreases |ops|
  {
    if ops == [] then g else GovRun(GovApply(g, ops[0]), ops[1..])
  }

  /** A vote leaves the proposal as the voting rules do, and every other proposal alone. */
  lemma BallotOutcome(g: Gov, id: Id, addr: Address, choice: Choice)
    requires GovOk(g)
    ensures CastBallot(g, id, addr, choice).proposals ==
            if id in g.proposals && Vote(g.proposals[id], addr, choice).Voted?
            then g.proposals[id := Vote(g.proposals[id], addr, choice).p] else g.proposals
  {
    hide TalliesOk, SetVote, CountVote, IndexOk, Numbered, Locks, Insert, Remove;
    if id in g.proposals && SetVote(g.proposals[id], addr, choice).Voted? {
      SetVoteFrame(g.proposals[id], addr, choice);
    }
  }

  /** Over every run of submissions, votes and status changes the indices list each proposal
      where it belongs, ids are never reused, tallies equal ballots and locks go down. */
  lemma {:induction false} GovRunOk(g: Gov, ops: seq<GovOp>)
    requires GovOk(g) && forall i | 0 <= i < |ops| :: LegalOp(ops[i])
    ensures GovOk(GovRun(g, ops))
    decreases |ops|
  {
    hide GovOk, SubmitProposal, CastBallot, ChangeProposalStatus;
    if ops != [] {
      assert LegalOp(ops[0]);
      match ops[0] {
        case Submit(s) => SubmitStep(g, s);
        case Ballots(id, addr, choice) => BallotStep(g, id, addr, choice);
        case SetStatus(id, status) => if id in g.proposals { ChangeStatusStep(g, id, status); }
      }
      GovRunOk(GovApply(g, ops[0]), ops[1..]);
    }
  }

  lemma EmptyGovOk()
    ensures GovOk(NO_PROPOSALS)
  {
  }

  // ---- lock chains ----------------------------------------------------------------------------------------

  predicate LockChain(ps: Proposals, path: seq<Id>) {
    && (forall i | 0 <= i < |path| :: path[i] in ps)
    && (forall i | 0 < i < |path| :: ps[path[i - 1]].lock == Some(path[i]))
  }

  lemma {:induction false} ChainDescends(ps: Proposals, path: seq<Id>)
    requires Locks(ps) && path != [] && LockChain(ps, path)
    ensures Priority(ps[path[|path| - 1]].event) + |path| - 1 <= Priority(ps[path[0]].event)
    ensures ps[path[|path| - 1]].objId == ps[path[0]].objId
  {
    if |path| > 1 {
      var front := path[..|path| - 1];
      assert LockChain(ps, front);
      ChainDescends(ps, front);
      assert ps[path[|path| - 2]].lock == Some(path[|path| - 1]);
      assert LockOk(ps, path[|path| - 2]);
    }
  }

  /** Lock chains stay on one object, are acyclic and hold at most four proposals. */
  lemma LocksAcyclic(ps: Proposals, path: seq<Id>)
    requires Locks(ps) && path != [] && LockChain(ps, path)
    ensures |path| <= 4
    ensures |path| > 1 ==> path[0] != path[|path| - 1]
    ensures ps[path[|path| - 1]].objId == ps[path[0]].objId
  {
    ChainDescends(ps, path);
  }
}
