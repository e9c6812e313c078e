/** The life of a governance admin (role.go) under the proposals about it (governance.go). */
module RoleLifecycle {
  import opened GoBytes
  import opened GoStrings
  import opened Voting
  import opened Governance
  import Strategy

  datatype Role = Role(weight: nat, status: ObjStatus)

  datatype Realm = Realm(roles: map<Address, Role>, gov: Gov)

  // ---- the state machine of a role ---------------------------------------------------------------

  /** The destinations of `setFSM`, where `last` is the status to fall back to. */
  function Destination(status: ObjStatus, event: Event, last: ObjStatus): Option<ObjStatus> {
    match event
    case Register => if status == Unavailable then Some(Registering) else None
    case Freeze => if status in {Available, Activating, Logouting} then Some(Freezing) else None
    case Activate => if status in {Frozen, Freezing, Logouting} then Some(Activating) else None
    case Logout =>
      if status in {Available, Freezing, Frozen, Activating, Binding} then Some(Logouting) else None
    case Bind => if status == Frozen then Some(Binding) else None
    case Pause =>
      if status in {Available, Binding} then Some(Frozen)
      else if status == Registering then Some(Unavailable) else None
    case Approve => (
      match status
      case Registering => Some(Available)
      case Freezing => Some(Frozen)
      case Activating => Some(Available)
      case Logouting => Some(Forbidden)
      case Binding => Some(Available)
      case _ => None)
    case Reject =>
      if status in {Registering, Freezing, Activating, Logouting} then Some(last)
      else if status == Binding then Some(Frozen) else None
    case _ => None
  }

  /** An event without a destination, or one that leads nowhere new, is an error. */
  function Fire(status: ObjStatus, event: Event, last: ObjStatus): Option<ObjStatus> {
    var to := Destination(status, event, last);
    if to == Some(status) then None else to
  }

  /** The moves of the state machine by event; a rejection that falls back is not listed. */
  function Moves(event: Event): map<ObjStatus, ObjStatus> {
    match event
    case Register => map[Unavailable := Registering]
    case Freeze => map[Available := Freezing, Activating := Freezing, Logouting := Freezing]
    case Activate => map[Frozen := Activating, Freezing := Activating, Logouting := Activating]
    case Logout => map[Available := Logouting, Freezing := Logouting, Frozen := Logouting, Activating := Logouting,
                       Binding := Logouting]
    case Bind => map[Frozen := Binding]
    case Pause => map[Available := Frozen, Binding := Frozen, Registering := Unavailable]
    case Approve => map[Registering := Available, Freezing := Frozen, Activating := Available, Logouting := Forbidden,
                        Binding := Available]
    case Reject => map[Binding := Frozen]
    case _ => map[]
  }

  predicate FallsBack(status: ObjStatus, event: Event) {
    event == Reject && status in {Registering, Freezing, Activating, Logouting}
  }

  lemma MovesTo(status: ObjStatus, event: Event, last: ObjStatus)
    ensures Destination(status, event, last) ==
            if FallsBack(status, event) then Some(last) else Lookup(Moves(event), status)
  {
  }

  /** A role moves exactly along these, or falls back on a rejection, and never stays; nothing
      leads out of a forbidden role, and only a registration out of an unavailable one. */
  lemma FireIff(status: ObjStatus, event: Event, last: ObjStatus, to: ObjStatus)
    ensures Fire(status, event, last) == Some(to) <==>
            && to != status
            && (if FallsBack(status, event) then to == last else Lookup(Moves(event), status) == Some(to))
    ensures Fire(Forbidden, event, last).None?
    ensures Fire(Unavailable, event, last).Some? ==> event == Register
  {
    MovesTo(status, event, last);
    hide Moves, FallsBack;
  }

  /** Where a governed event can be asked for. */
  function Startable(event: Event): set<ObjStatus> {
    match event
    case Register => {Unavailable}
    case Freeze => {Available}
    case Activate => {Frozen}
    case Logout => {Available, Freezing, Activating, Frozen, Binding}
    case _ => {}
  }

  /** `changeStatus`. */
  function ChangeStatus(roles: map<Address, Role>, id: Address, event: Event, last: ObjStatus)
    : Option<map<Address, Role>>
  {
    if id !in roles then None
    else
      match Fire(roles[id].status, event, last)
      case None => None
      case Some(to) => Some(roles[id := roles[id].(status := to)])
  }

  // ---- the calls -----------------------------------------------------------------------------------

  /** The sender of a call, with the electorate and the strategy in force. */
  datatype Env = Env(from: string, permitted: bool, electorate: seq<Elector>, strategy: Strategy.Expr)

  function Submit(s: Realm, env: Env, id: Address, event: Event, last: ObjStatus): Option<Realm> {
    match SubmitProposal(s.gov, Submission(env.from, event, ROLE_MGR, id, last, env.electorate, env.strategy))
    case None => None
    case Some((gov, _)) =>
      match ChangeStatus(s.roles, id, event, last)
      case None => None
      case Some(roles) => Some(Realm(roles, gov))
  }

  function RegisterRole(s: Realm, env: Env, id: Address): Option<Realm> {
    if !env.permitted || (id in s.roles && s.roles[id].status !in Startable(Register)) then None
    else Submit(s.(roles := s.roles[id := Role(NORMAL_WEIGHT, Unavailable)]), env, id, Register, Unavailable)
  }

  /** `basicGovernance` for freezing, activating and logging out. */
  function Govern(s: Realm, env: Env, id: Address, event: Event): Option<Realm> {
    if !env.permitted || id !in s.roles || s.roles[id].status !in Startable(event) then None
    else if event == Bind || s.roles[id].weight == SUPER_WEIGHT then None
    else Submit(s, env, id, event, s.roles[id].status)
  }

  function EventOf(status: ProposalStatus): Event {
    if status == Approved then Approve else Reject
  }

  /** `handleResult` on a proposal that has just been closed. */
  function HandleResult(s: Realm, p: Proposal): Option<Realm> {
    match p.lock
    case None => Manage(s, p, EventOf(p.status))
    case Some(lock) =>
      if lock !in s.gov.proposals then None
      else
        var locked := s.gov.proposals[lock];
        if p.status == Approved
        then Manage(s.(gov := ChangeProposalStatus(s.gov, locked, Rejected)), p, Approve)
        else Manage(s.(gov := ChangeProposalStatus(s.gov, locked, Proposed)), p, locked.event)
  }

  function Manage(s: Realm, p: Proposal, next: Event): Option<Realm> {
    match ChangeStatus(s.roles, p.objId, next, p.objLast)
    case None => None
    case Some(roles) => Some(s.(roles := roles))
  }

  function Close(s: Realm, p: Proposal, status: ProposalStatus): Option<Realm> {
    HandleResult(s.(gov := ChangeProposalStatus(s.gov, p, status)), p.(status := status))
  }

  /** `IsAnyAvailableAdmin`. */
  predicate AvailableAdmin(roles: map<Address, Role>, addr: Address) {
    addr in roles && roles[addr].status in {Available, Freezing}
  }

  function CastVote(s: Realm, id: Id, addr: Address, choice: Choice): Option<Realm> {
    if !AvailableAdmin(s.roles, addr) || id !in s.gov.proposals then None
    else
      match SetVote(s.gov.proposals[id], addr, choice)
      case Refused(_) => None
      case Voted(q) =>
        var put := s.(gov := Put(s.gov, q));
        match CountVote(q)
        case None => None
        case Some(status) => if status == q.status then Some(put) else Close(put, q, status)
  }

  /** The sender named in front of the dash of an id; without a dash the lookup panics. */
  predicate MayWithdraw(caller: string, id: Id) {
    '-' in id && FromOf(id) == caller
  }

  /** `WithdrawProposal`. */
  function Withdraw(s: Realm, caller: string, id: Id): Option<Realm> {
    if !MayWithdraw(caller, id) || id !in s.gov.proposals then None
    else if s.gov.proposals[id].status in {Approved, Rejected} then None
    else Close(s, s.gov.proposals[id], Rejected)
  }

  // ---- the invariant ----------------------------------------------------------------------------------

  function StatusOf(roles: map<Address, Role>, id: Address): ObjStatus {
    if id in roles then roles[id].status else Unavailable
  }

  /** The proposals about an object that have a given status. */
  function About(ps: Proposals, x: string, status: ProposalStatus): set<Id> {
    set id | id in ps && ps[id].objId == x && ps[id].status == status
  }

  predicate Is(p: Proposal, event: Event, last: ObjStatus) {
    p.event == event && p.objLast == last
  }

  predicate Free(p: Proposal, event: Event, last: ObjStatus) {
    Is(p, event, last) && p.lock.None?
  }

  predicate Only(ids: set<Id>, id: Id) {
    ids == {id}
  }

  /** The proposal that a logout started from this status has to lock. */
  predicate LocksFor(ps: Proposals, paused: set<Id>, p: Proposal) {
    match p.objLast
    case Available => p.lock.None? && paused == {}
    case Frozen => p.lock.None? && paused == {}
    case Freezing =>
      p.lock.Some? && Only(paused, p.lock.value) && p.lock.value in ps && Free(ps[p.lock.value], Freeze, Available)
    case Activating =>
      p.lock.Some? && Only(paused, p.lock.value) && p.lock.value in ps && Free(ps[p.lock.value], Activate, Frozen)
    case _ => false
  }

  /** The role's status against its open proposal p. */
  predicate Agrees(ps: Proposals, status: ObjStatus, p: Proposal, paused: set<Id>) {
    match status
    case Registering => paused == {} && Free(p, Register, Unavailable)
    case Freezing => paused == {} && Free(p, Freeze, Available)
    case Activating => paused == {} && Free(p, Activate, Frozen)
    case Logouting => p.event == Logout && LocksFor(ps, paused, p)
    case _ => false
  }

  predicate Idle(status: ObjStatus) {
    status in {Unavailable, Available, Frozen, Forbidden}
  }

  /** A role in a settled status has no open proposal; in a passing one it has exactly the
      one that fits, and a paused one only below a logout that locked it. */
  ghost predicate RoleOk(ps: Proposals, status: ObjStatus, x: string) {
    var open, paused := About(ps, x, Proposed), About(ps, x, Paused);
    if Idle(status) then open == {} && paused == {}
    else exists id :: Only(open, id) && id in ps && Agrees(ps, status, ps[id], paused)
  }

  ghost predicate RealmOk(s: Realm) {
    GovOk(s.gov) && forall x: string :: RoleOk(s.gov.proposals, StatusOf(s.roles, x), x)
  }

  // ---- frames --------------------------------------------------------------------------------------------

  predicate SameAbout(ps: Proposals, qs: Proposals, id: Id, x: string) {
    && (id in ps && ps[id].objId == x <==> id in qs && qs[id].objId == x)
    && (id in ps && ps[id].objId == x ==> SameProposal(ps[id], qs[id]) && ps[id].status == qs[id].status)
  }

  lemma AboutSame(ps: Proposals, qs: Proposals, x: string, status: ProposalStatus)
    requires forall id :: SameAbout(ps, qs, id, x)
    ensures About(qs, x, status) == About(ps, x, status)
  {
    forall id
      ensures id in About(qs, x, status) <==> id in About(ps, x, status)
    {
      assert SameAbout(ps, qs, id, x);
    }
  }

  lemma RoleFrame(ps: Proposals, qs: Proposals, status: ObjStatus, x: string)
    requires Locks(ps) && RoleOk(ps, status, x)
    requires forall id :: SameAbout(ps, qs, id, x)
    ensures RoleOk(qs, status, x)
  {
    AboutSame(ps, qs, x, Proposed);
    AboutSame(ps, qs, x, Paused);
    if !Idle(status) {
      var id :| Only(About(ps, x, Proposed), id) && id in ps && Agrees(ps, status, ps[id], About(ps, x, Paused));
      assert id in About(ps, x, Proposed);
      assert SameAbout(ps, qs, id, x);
      if ps[id].lock.Some? {
        assert LockOk(ps, id);
        assert SameAbout(ps, qs, ps[id].lock.value, x);
      }
      assert Agrees(qs, status, qs[id], About(qs, x, Paused));
    }
  }

  /** A step that changes proposals and the role of one object keeps the others in order. */
  lemma OthersKept(s: Realm, t: Realm, x: string)
    requires RealmOk(s) && GovOk(t.gov) && RoleOk(t.gov.proposals, StatusOf(t.roles, x), x)
    requires forall y: string | y != x :: StatusOf(t.roles, y) == StatusOf(s.roles, y)
    requires forall id, y: string | y != x :: SameAbout(s.gov.proposals, t.gov.proposals, id, y)
    ensures RealmOk(t)
  {
    hide GovOk, RoleOk, SameAbout;
    assert Locks(s.gov.proposals) by { HasLocks(s.gov); }
    forall y: string
      ensures RoleOk(t.gov.proposals, StatusOf(t.roles, y), y)
    {
      if y != x {
        RoleFrame(s.gov.proposals, t.gov.proposals, StatusOf(s.roles, y), y);
      }
    }
  }

  lemma HasLocks(g: Gov)
    requires GovOk(g)
    ensures Locks(g.proposals)
  {
  }

  // ---- the proposals about one object -----------------------------------------------------------------------

  lemma AboutMoved(ps: Proposals, id: Id, to: ProposalStatus, x: string, status: ProposalStatus)
    requires id in ps && ps[id].objId == x
    ensures About(ps[id := ps[id].(status := to)], x, status) ==
            if status == to then About(ps, x, status) + {id} else About(ps, x, status) - {id}
  {
  }

  lemma AboutAdded(ps: Proposals, p: Proposal, x: string, status: ProposalStatus)
    requires p.id !in ps && p.objId == x
    ensures About(ps[p.id := p], x, status) == About(ps, x, status) + if status == p.status then {p.id} else {}
  {
  }

  // ---- submitting -------------------------------------------------------------------------------------------

  lemma SubmitShape(g: Gov, sub: Submission)
    requires GovOk(g) && SepFree(sub.from, '-') && |sub.electorate| < UINT64
    requires SubmitProposal(g, sub).Some?
    ensures var (h, id) := SubmitProposal(g, sub).value;
            && GovOk(h) && id !in g.proposals
            && h.proposals == AfterLock(g, sub.objId, sub.event)[id := h.proposals[id]]
            && h.proposals[id] == NewProposal(sub, id, h.proposals[id].thresholdNum, Lockee(g, sub.objId, sub.event))
            && h.proposals[id].id == id
  {
    hide GovOk, SubmitProposal, Lockee, AfterLock, InitialThreshold;
    SubmitStep(g, sub);
    assert Keyed(g.proposals) by { IsKeyed(g); }
    SubmitResult(g, sub);
  }

  /** The proposal that gets locked is the one open proposal, if its priority is lower. */
  lemma LockeeIs(g: Gov, x: string, event: Event)
    requires GovOk(g)
    ensures var lock := Lockee(g, x, event);
            && (lock.Some? ==> lock.value in About(g.proposals, x, Proposed)
                               && Priority(g.proposals[lock.value].event) < Priority(event))
            && (lock.None? ==> forall id | id in About(g.proposals, x, Proposed) ::
                                 Priority(g.proposals[id].event) >= Priority(event))
  {
    hide Numbered, Locks, Tallied, Priority;
    assert Indexed(g.byObj, g.proposals, ObjKey);
    forall id | id in About(g.proposals, x, Proposed)
      ensures id in At(g.byObj, x)
    {
      assert ObjKey(g.proposals[id]) == x;
    }
    var lock := Lockee(g, x, event);
    if lock.Some? {
      assert ObjKey(g.proposals[lock.value]) == x;
    }
  }

  predicate Governable(event: Event) {
    event in {Register, Freeze, Activate, Logout}
  }

  /** What the submission of an event leaves about its object. */
  lemma SubmittedAbout(g: Gov, sub: Submission, status: ProposalStatus)
    requires GovOk(g) && SepFree(sub.from, '-') && |sub.electorate| < UINT64
    requires SubmitProposal(g, sub).Some?
    ensures var (h, id) := SubmitProposal(g, sub).value;
            var lock := Lockee(g, sub.objId, sub.event);
            var locked := if lock.Some? then {lock.value} else {};
            var was := About(g.proposals, sub.objId, status);
            About(h.proposals, sub.objId, status) ==
            match status
            case Proposed => was - locked + {id}
            case Paused => was + locked
            case _ => was - locked
  {
    hide GovOk, SubmitProposal, Lockee, About, Strategy.Threshold;
    SubmitShape(g, sub);
    LockeeIs(g, sub.objId, sub.event);
    var lock := Lockee(g, sub.objId, sub.event);
    var (h, id) := SubmitProposal(g, sub).value;
    if lock.Some? {
      LockeeAbout(g, sub.objId, lock.value);
      AboutMoved(g.proposals, lock.value, Paused, sub.objId, status);
    }
    AboutAdded(AfterLock(g, sub.objId, sub.event), h.proposals[id], sub.objId, status);
  }

  lemma LockeeAbout(g: Gov, x: string, id: Id)
    requires id in About(g.proposals, x, Proposed)
    ensures id in g.proposals && g.proposals[id].objId == x
  {
  }

  lemma SubmitOthers(g: Gov, sub: Submission, id: Id, y: string)
    requires GovOk(g) && SepFree(sub.from, '-') && |sub.electorate| < UINT64
    requires SubmitProposal(g, sub).Some? && y != sub.objId
    ensures SameAbout(g.proposals, SubmitProposal(g, sub).value.0.proposals, id, y)
  {
    hide GovOk, SubmitProposal, Lockee, Priority, IsSpecial;
    SubmitShape(g, sub);
    LockeeIs(g, sub.objId, sub.event);
  }

  /** The open proposal of a role in a passing status. */
  lemma OpenProposal(ps: Proposals, status: ObjStatus, x: string) returns (id: Id)
    requires RoleOk(ps, status, x) && !Idle(status)
    ensures About(ps, x, Proposed) == {id} && id in ps && ps[id].objId == x && ps[id].status == Proposed
    ensures Agrees(ps, status, ps[id], About(ps, x, Paused))
  {
    id :| Only(About(ps, x, Proposed), id) && id in ps && Agrees(ps, status, ps[id], About(ps, x, Paused));
    assert id in About(ps, x, Proposed);
  }

  /** A new proposal finds its object settled, or is a logout that locks the open proposal. */
  lemma SubmitRole(g: Gov, sub: Submission)
    requires GovOk(g) && SepFree(sub.from, '-') && |sub.electorate| < UINT64
    requires RoleOk(g.proposals, sub.objLast, sub.objId)
    requires Governable(sub.event) && sub.objLast in Startable(sub.event) && SubmitProposal(g, sub).Some?
    ensures var to := Fire(sub.objLast, sub.event, sub.objLast);
            to.Some? && RoleOk(SubmitProposal(g, sub).value.0.proposals, to.value, sub.objId)
  {
    hide GovOk, SubmitProposal, Lockee, About, IsSpecial;
    var x, last := sub.objId, sub.objLast;
    var (h, id) := SubmitProposal(g, sub).value;
    SubmitShape(g, sub);
    SubmittedAbout(g, sub, Proposed);
    SubmittedAbout(g, sub, Paused);
    LockeeIs(g, x, sub.event);
    if !Idle(last) {
      var q := OpenProposal(g.proposals, last, x);
      assert q in About(g.proposals, x, Proposed);
      assert Lockee(g, x, sub.event) == Some(q);
    } else {
      assert Lockee(g, x, sub.event).None?;
    }
    assert Only(About(h.proposals, x, Proposed), id);
  }

  lemma SubmitRealm(s: Realm, env: Env, x: Address, event: Event)
    requires RealmOk(s) && SepFree(env.from, '-') && |env.electorate| < UINT64
    requires x in s.roles && Governable(event) && s.roles[x].status in Startable(event)
    requires Submit(s, env, x, event, s.roles[x].status).Some?
    ensures RealmOk(Submit(s, env, x, event, s.roles[x].status).value)
  {
    hide GovOk, SubmitProposal, RoleOk, SameAbout, Startable, Fire;
    var sub := Submission(env.from, event, ROLE_MGR, x, s.roles[x].status, env.electorate, env.strategy);
    var t := Submit(s, env, x, event, s.roles[x].status).value;
    SubmitShape(s.gov, sub);
    assert StatusOf(s.roles, x) == s.roles[x].status;
    SubmitRole(s.gov, sub);
    forall id, y: string | y != x
      ensures SameAbout(s.gov.proposals, t.gov.proposals, id, y)
    {
      SubmitOthers(s.gov, sub, id, y);
    }
    OthersKept(s, t, x);
  }

  // ---- closing ----------------------------------------------------------------------------------------------

  function Moved(ps: Proposals, id: Id, status: ProposalStatus): Proposals
    requires id in ps
  {
    ps[id := ps[id].(status := status)]
  }

  /** The proposals after a proposal is closed and the one it locked is ended or resumed. */
  function ClosedProposals(ps: Proposals, id: Id, status: ProposalStatus): Proposals
    requires id in ps
  {
    var closed := Moved(ps, id, status);
    var lock := ps[id].lock;
    if lock.Some? && lock.value in closed
    then Moved(closed, lock.value, if status == Approved then Rejected else Proposed)
    else closed
  }

  function NextEvent(ps: Proposals, id: Id, status: ProposalStatus): Event
    requires id in ps
  {
    var lock := ps[id].lock;
    if lock.Some? && lock.value in ps && status != Approved then ps[lock.value].event else EventOf(status)
  }

  function ClosedGov(g: Gov, id: Id, status: ProposalStatus): Gov
    requires id in g.proposals
  {
    var closed := ChangeProposalStatus(g, g.proposals[id], status);
    var lock := g.proposals[id].lock;
    if lock.Some? && lock.value in closed.proposals
    then ChangeProposalStatus(closed, closed.proposals[lock.value], if status == Approved then Rejected else Proposed)
    else closed
  }

  lemma ClosedGovOk(g: Gov, id: Id, status: ProposalStatus)
    requires GovOk(g) && id in g.proposals
    ensures GovOk(ClosedGov(g, id, status))
    ensures ClosedGov(g, id, status).proposals == ClosedProposals(g.proposals, id, status)
  {
    hide GovOk, Insert, Remove;
    ChangeStatusStep(g, id, status);
    IsKeyed(g);
    var h := ChangeProposalStatus(g, g.proposals[id], status);
    IsKeyed(h);
    var lock := g.proposals[id].lock;
    if lock.Some? && lock.value in h.proposals {
      ChangeStatusStep(h, lock.value, if status == Approved then Rejected else Proposed);
    }
  }

  lemma CloseShape(s: Realm, id: Id, status: ProposalStatus)
    requires Keyed(s.gov.proposals) && Locks(s.gov.proposals) && id in s.gov.proposals
    ensures var p := s.gov.proposals[id];
            var roles := ChangeStatus(s.roles, p.objId, NextEvent(s.gov.proposals, id, status), p.objLast);
            Close(s, p, status) ==
            if roles.None? then None else Some(Realm(roles.value, ClosedGov(s.gov, id, status)))
  {
    hide Insert, Remove, ChangeStatus, Priority;
    assert LockOk(s.gov.proposals, id);
  }

  lemma ClosedOthers(ps: Proposals, id: Id, status: ProposalStatus, i: Id, y: string)
    requires Locks(ps) && id in ps && y != ps[id].objId
    ensures SameAbout(ps, ClosedProposals(ps, id, status), i, y)
  {
    hide Priority;
    assert LockOk(ps, id);
  }

  lemma ClosedAbout(ps: Proposals, id: Id, status: ProposalStatus, about: ProposalStatus)
    requires Locks(ps) && id in ps && status in {Approved, Rejected}
    ensures var x, lock := ps[id].objId, ps[id].lock;
            var to := if status == Approved then Rejected else Proposed;
            var closed := if about == status then About(ps, x, about) + {id} else About(ps, x, about) - {id};
            About(ClosedProposals(ps, id, status), x, about) ==
            if lock.None? then closed else if about == to then closed + {lock.value} else closed - {lock.value}
  {
    hide Priority, About;
    assert LockOk(ps, id);
    var x := ps[id].objId;
    AboutMoved(ps, id, status, x, about);
    if ps[id].lock.Some? {
      var to := if status == Approved then Rejected else Proposed;
      AboutMoved(Moved(ps, id, status), ps[id].lock.value, to, x, about);
    }
  }

  /** Ending a proposal that locked nothing settles its role. */
  lemma CloseFree(ps: Proposals, at: ObjStatus, id: Id, status: ProposalStatus)
    requires Locks(ps) && id in ps && status in {Approved, Rejected} && ps[id].lock.None?
    requires About(ps, ps[id].objId, Proposed) == {id}
    requires Agrees(ps, at, ps[id], About(ps, ps[id].objId, Paused))
    ensures var to := Fire(at, EventOf(status), ps[id].objLast);
            to.Some? && RoleOk(ClosedProposals(ps, id, status), to.value, ps[id].objId)
  {
    hide About, ClosedProposals;
    ClosedAbout(ps, id, status, Proposed);
    ClosedAbout(ps, id, status, Paused);
  }

  /** Ending a logout ends the proposal it locked, or resumes it with the status it had. */
  lemma CloseLocking(ps: Proposals, at: ObjStatus, id: Id, status: ProposalStatus)
    requires Locks(ps) && id in ps && status in {Approved, Rejected} && ps[id].lock.Some?
    requires About(ps, ps[id].objId, Proposed) == {id}
    requires Agrees(ps, at, ps[id], About(ps, ps[id].objId, Paused))
    ensures var to := Fire(at, NextEvent(ps, id, status), ps[id].objLast);
            to.Some? && RoleOk(ClosedProposals(ps, id, status), to.value, ps[id].objId)
    ensures status == Rejected ==> Fire(at, NextEvent(ps, id, status), ps[id].objLast) == Some(ps[id].objLast)
  {
    hide About;
    var x, qs, lock := ps[id].objId, ClosedProposals(ps, id, status), ps[id].lock.value;
    assert lock in About(ps, x, Paused) && id in About(ps, x, Proposed);
    NotBoth(ps, x, id, lock);
    ClosedAbout(ps, id, status, Proposed);
    ClosedAbout(ps, id, status, Paused);
    if status == Rejected {
      assert Only(About(qs, x, Proposed), lock);
      assert qs[lock] == ps[lock].(status := Proposed);
    }
  }

  lemma NotBoth(ps: Proposals, x: string, id: Id, lock: Id)
    requires id in About(ps, x, Proposed) && lock in About(ps, x, Paused)
    ensures id != lock
  {
  }

  /** Closing the open proposal of a role always succeeds and leaves the role in order. */
  lemma CloseRole(ps: Proposals, at: ObjStatus, id: Id, status: ProposalStatus)
    requires Locks(ps) && id in ps && ps[id].status == Proposed && status in {Approved, Rejected}
    requires RoleOk(ps, at, ps[id].objId)
    ensures var to := Fire(at, NextEvent(ps, id, status), ps[id].objLast);
            to.Some? && RoleOk(ClosedProposals(ps, id, status), to.value, ps[id].objId)
  {
    var x := ps[id].objId;
    assert id in About(ps, x, Proposed);
    hide About, ClosedProposals, Fire, Agrees;
    var q := OpenProposal(ps, at, x);
    assert q == id;
    if ps[id].lock.Some? {
      CloseLocking(ps, at, id, status);
    } else {
      CloseFree(ps, at, id, status);
    }
  }

  /** Whatever the outcome, a closed vote is carried out on the role it is about. */
  lemma CloseStep(s: Realm, id: Id, status: ProposalStatus)
    requires RealmOk(s) && id in s.gov.proposals && s.gov.proposals[id].status == Proposed
    requires status in {Approved, Rejected}
    ensures Close(s, s.gov.proposals[id], status).Some?
    ensures RealmOk(Close(s, s.gov.proposals[id], status).value)
  {
    hide GovOk, RoleOk, Close, ClosedProposals, ClosedGov, Fire, SameAbout, NextEvent;
    var ps := s.gov.proposals;
    var x := ps[id].objId;
    HasLocks(s.gov);
    IsKeyed(s.gov);
    ClosedGovOk(s.gov, id, status);
    assert RoleOk(ps, StatusOf(s.roles, x), x);
    CloseRole(ps, StatusOf(s.roles, x), id, status);
    CloseShape(s, id, status);
    HasRole(s, id);
    var t := Close(s, ps[id], status).value;
    forall i, y: string | y != x
      ensures SameAbout(ps, t.gov.proposals, i, y)
    {
      ClosedOthers(ps, id, status, i, y);
    }
    OthersKept(s, t, x);
  }

  /** The status that an approved proposal gives its role. */
  function Granted(event: Event): ObjStatus {
    match event
    case Register => Available
    case Freeze => Frozen
    case Activate => Available
    case Logout => Forbidden
    case _ => Unavailable
  }

  /** A proposal ends as p: its role gets the status asked for, or goes back to the one it
      had; the proposal that it locked is rejected with an approval and open again otherwise;
      nothing else changes. */
  ghost predicate Ended(s: Realm, t: Realm, id: Id, p: Proposal) {
    var x, ps := p.objId, s.gov.proposals;
    && p.event in {Register, Freeze, Activate, Logout} && p.status in {Approved, Rejected}
    && x in s.roles
    && t.roles == s.roles[x := s.roles[x].(status := if p.status == Approved then Granted(p.event) else p.objLast)]
    && t.gov.proposals.Keys == ps.Keys
    && forall j | j in ps ::
         t.gov.proposals[j] ==
         if j == id then p
         else if p.lock == Some(j) then ps[j].(status := if p.status == Approved then Rejected else Proposed)
         else ps[j]
  }

  lemma OutcomeFires(ps: Proposals, at: ObjStatus, id: Id, status: ProposalStatus)
    requires Locks(ps) && id in ps && ps[id].status == Proposed && status in {Approved, Rejected}
    requires RoleOk(ps, at, ps[id].objId)
    ensures ps[id].event in {Register, Freeze, Activate, Logout}
    ensures Fire(at, NextEvent(ps, id, status), ps[id].objLast) ==
            Some(if status == Approved then Granted(ps[id].event) else ps[id].objLast)
  {
    hide About;
    assert LockOk(ps, id);
    var q := OpenOf(ps, at, id);
  }

  /** Closing the open proposal of a role gives the role exactly the status of the outcome. */
  lemma CloseOutcome(s: Realm, id: Id, status: ProposalStatus)
    requires RealmOk(s) && id in s.gov.proposals && s.gov.proposals[id].status == Proposed
    requires status in {Approved, Rejected}
    ensures Close(s, s.gov.proposals[id], status).Some?
    ensures Ended(s, Close(s, s.gov.proposals[id], status).value, id, s.gov.proposals[id].(status := status))
  {
    hide GovOk, RoleOk, Close, ClosedGov, Fire, NextEvent, Granted;
    var ps := s.gov.proposals;
    var x := ps[id].objId;
    HasLocks(s.gov);
    IsKeyed(s.gov);
    HasRole(s, id);
    CloseShape(s, id, status);
    ClosedGovOk(s.gov, id, status);
    assert LockOk(ps, id);
    assert RoleOk(ps, StatusOf(s.roles, x), x);
    OutcomeFires(ps, StatusOf(s.roles, x), id, status);
  }

  lemma HasRole(s: Realm, id: Id)
    requires RealmOk(s) && id in s.gov.proposals && s.gov.proposals[id].status == Proposed
    ensures s.gov.proposals[id].objId in s.roles
  {
    hide GovOk;
    var x := s.gov.proposals[id].objId;
    assert RoleOk(s.gov.proposals, StatusOf(s.roles, x), x);
    assert id in About(s.gov.proposals, x, Proposed);
  }

  lemma LogoutRestored(ps: Proposals, at: ObjStatus, id: Id)
    requires Locks(ps) && id in ps && ps[id].status == Proposed && ps[id].event == Logout
    requires RoleOk(ps, at, ps[id].objId)
    ensures var x, qs := ps[id].objId, ClosedProposals(ps, id, Rejected);
            && Fire(at, NextEvent(ps, id, Rejected), ps[id].objLast) == Some(ps[id].objLast)
            && About(qs, x, Proposed) == About(ps, x, Paused) && About(qs, x, Paused) == {}
  {
    var x := ps[id].objId;
    assert id in About(ps, x, Proposed);
    hide About, ClosedProposals, RoleOk;
    var q := OpenOf(ps, at, id);
    ClosedAbout(ps, id, Rejected, Proposed);
    ClosedAbout(ps, id, Rejected, Paused);
    if ps[id].lock.Some? {
      assert ps[id].lock.value in About(ps, x, Paused);
      NotBoth(ps, x, id, ps[id].lock.value);
      CloseLocking(ps, at, id, Rejected);
    }
  }

  lemma OpenOf(ps: Proposals, at: ObjStatus, id: Id) returns (q: Id)
    requires id in ps && ps[id].status in {Proposed, Paused} && RoleOk(ps, at, ps[id].objId)
    ensures var x := ps[id].objId;
            && About(ps, x, Proposed) == {q} && q in ps && ps[q].objId == x && ps[q].status == Proposed
            && Agrees(ps, at, ps[q], About(ps, x, Paused)) && !Idle(at)
            && (ps[id].status == Proposed ==> q == id)
  {
    var x := ps[id].objId;
    assert id in About(ps, x, ps[id].status);
    hide About, Agrees;
    q := OpenProposal(ps, at, x);
  }

  /** A rejected logout puts the role back in the status it was logged out from, with the
      proposal that the logout had locked open again and nothing left paused. */
  lemma RejectedLogoutRestores(s: Realm, id: Id)
    requires RealmOk(s) && id in s.gov.proposals && s.gov.proposals[id].status == Proposed
    requires s.gov.proposals[id].event == Logout
    ensures var x := s.gov.proposals[id].objId;
            var t := Close(s, s.gov.proposals[id], Rejected);
            && t.Some? && StatusOf(t.value.roles, x) == s.gov.proposals[id].objLast
            && About(t.value.gov.proposals, x, Proposed) == About(s.gov.proposals, x, Paused)
            && About(t.value.gov.proposals, x, Paused) == {}
  {
    hide GovOk, RoleOk, About, Close, ClosedProposals, ClosedGov, Fire, NextEvent;
    var x := s.gov.proposals[id].objId;
    HasLocks(s.gov);
    IsKeyed(s.gov);
    HasRole(s, id);
    CloseShape(s, id, Rejected);
    ClosedGovOk(s.gov, id, Rejected);
    assert RoleOk(s.gov.proposals, StatusOf(s.roles, x), x);
    LogoutRestored(s.gov.proposals, StatusOf(s.roles, x), id);
  }

  // ---- votes and withdrawals ----------------------------------------------------------------------------------

  lemma PutRealm(s: Realm, q: Proposal)
    requires RealmOk(s) && q.id in s.gov.proposals && SameProposal(s.gov.proposals[q.id], q)
    requires q.status == s.gov.proposals[q.id].status && TalliesOk(q)
    ensures RealmOk(s.(gov := Put(s.gov, q)))
  {
    hide GovOk, RoleOk, TalliesOk;
    PutStep(s.gov, q);
    HasLocks(s.gov);
    forall y: string
      ensures RoleOk(Put(s.gov, q).proposals, StatusOf(s.roles, y), y)
    {
      RoleFrame(s.gov.proposals, Put(s.gov, q).proposals, StatusOf(s.roles, y), y);
    }
  }

  lemma StoredTallies(g: Gov, id: Id)
    requires GovOk(g) && id in g.proposals
    ensures TalliesOk(g.proposals[id]) && g.proposals[id].id == id
  {
    hide IndexOk, Numbered, Locks;
  }

  lemma VoteStep(s: Realm, id: Id, addr: Address, choice: Choice)
    requires RealmOk(s) && CastVote(s, id, addr, choice).Some?
    ensures RealmOk(CastVote(s, id, addr, choice).value)
  {
    hide RealmOk, TalliesOk, SetVote, DecisionOf, Close;
    var p := s.gov.proposals[id];
    assert GovOk(s.gov) by { GovOf(s); }
    StoredTallies(s.gov, id);
    SetVoteFrame(p, addr, choice);
    var q := SetVote(p, addr, choice).p;
    PutRealm(s, q);
    assert q.status == Proposed by { VotedOpen(p, addr, choice); }
    if CountVote(q) != Some(q.status) {
      CloseStep(s.(gov := Put(s.gov, q)), id, CountVote(q).value);
    }
  }

  /** A vote that is accepted is also counted and carried out. */
  lemma VoteSucceeds(s: Realm, id: Id, addr: Address, choice: Choice)
    requires RealmOk(s) && AvailableAdmin(s.roles, addr) && id in s.gov.proposals
    requires SetVote(s.gov.proposals[id], addr, choice).Voted?
    ensures CastVote(s, id, addr, choice).Some?
  {
    hide RealmOk, TalliesOk, SetVote, DecisionOf, Close;
    var p := s.gov.proposals[id];
    GovOf(s);
    StoredTallies(s.gov, id);
    SetVoteFrame(p, addr, choice);
    var q := SetVote(p, addr, choice).p;
    PutRealm(s, q);
    VotedOpen(p, addr, choice);
    VotedCounts(p, addr, choice);
    if CountVote(q) != Some(q.status) {
      CloseStep(s.(gov := Put(s.gov, q)), id, CountVote(q).value);
    }
  }

  /** Exactly which votes go through: an available or freezing admin of the electorate votes
      for the first time on an open proposal, and a threshold is left.  The proposal then is
      as `Vote` leaves it, and if that ended it the role follows. */
  lemma VoteOutcome(s: Realm, id: Id, addr: Address, choice: Choice)
    requires RealmOk(s)
    ensures CastVote(s, id, addr, choice).Some? <==>
            && addr in s.roles && s.roles[addr].status in {Available, Freezing}
            && id in s.gov.proposals && SetVote(s.gov.proposals[id], addr, choice).Voted?
    ensures CastVote(s, id, addr, choice).Some? ==>
            var p, t := s.gov.proposals[id], CastVote(s, id, addr, choice).value;
            && Vote(p, addr, choice).Voted?
            && var q := Vote(p, addr, choice).p;
               if q.status == Proposed
               then t.roles == s.roles && t.gov.proposals == s.gov.proposals[id := q]
               else Ended(s, t, id, q)
  {
    hide RealmOk, TalliesOk, SetVote, DecisionOf, Close, Ended;
    if AvailableAdmin(s.roles, addr) && id in s.gov.proposals && SetVote(s.gov.proposals[id], addr, choice).Voted? {
      VoteSucceeds(s, id, addr, choice);
      var p := s.gov.proposals[id];
      GovOf(s);
      StoredTallies(s.gov, id);
      SetVoteFrame(p, addr, choice);
      VotedOpen(p, addr, choice);
      VotedCounts(p, addr, choice);
      var q := SetVote(p, addr, choice).p;
      PutRealm(s, q);
      if CountVote(q) != Some(q.status) {
        var put := s.(gov := Put(s.gov, q));
        CloseOutcome(put, id, CountVote(q).value);
        EndedOver(s, put, Close(put, q, CountVote(q).value).value, id, q.(status := CountVote(q).value));
      }
    }
  }

  /** The ballot was stored on the same proposal. */
  lemma EndedOver(s: Realm, put: Realm, t: Realm, id: Id, p: Proposal)
    requires put.roles == s.roles && id in s.gov.proposals && id in put.gov.proposals
    requires put.gov.proposals == s.gov.proposals[id := put.gov.proposals[id]]
    requires Ended(put, t, id, p)
    ensures Ended(s, t, id, p)
  {
    hide Granted;
    assert forall j | j in s.gov.proposals && j != id :: put.gov.proposals[j] == s.gov.proposals[j];
  }

  lemma VotedCounts(p: Proposal, addr: Address, choice: Choice)
    requires SetVote(p, addr, choice).Voted?
    ensures CountVote(SetVote(p, addr, choice).p).Some?
  {
    var q := SetVote(p, addr, choice).p;
    assert Strategy.Decides(q.strategy, q.approveNum, q.againstNum, q.initialNum, q.availableNum);
  }

  lemma GovOf(s: Realm)
    requires RealmOk(s)
    ensures GovOk(s.gov)
  {
  }

  lemma VotedOpen(p: Proposal, addr: Address, choice: Choice)
    requires SetVote(p, addr, choice).Voted?
    ensures SetVote(p, addr, choice).p.status == Proposed
  {
    hide Strategy.Threshold;
  }

  /** A paused proposal locks nothing, and its role is being logged out. */
  lemma PausedShape(ps: Proposals, at: ObjStatus, id: Id)
    requires id in ps && ps[id].status == Paused && RoleOk(ps, at, ps[id].objId)
    ensures at == Logouting && ps[id].lock.None? && ps[id].objLast in {Available, Frozen}
    ensures ps[id].event in {Freeze, Activate}
  {
    var x := ps[id].objId;
    assert id in About(ps, x, Paused);
    hide About;
    var logout := OpenOf(ps, at, id);
    assert Only(About(ps, x, Paused), ps[logout].lock.value);
  }

  /** Ending it moves the role, which its open logout then no longer fits. */
  lemma PausedMoves(ps: Proposals, at: ObjStatus, id: Id)
    requires Locks(ps) && id in ps && ps[id].status == Paused && RoleOk(ps, at, ps[id].objId)
    ensures var to := Fire(at, NextEvent(ps, id, Rejected), ps[id].objLast);
            to.Some? && !RoleOk(ClosedProposals(ps, id, Rejected), to.value, ps[id].objId)
  {
    var x := ps[id].objId;
    assert id in About(ps, x, Paused);
    hide About, ClosedProposals;
    PausedShape(ps, at, id);
    var logout := OpenOf(ps, at, id);
    assert logout in About(ps, x, Proposed);
    NotBoth(ps, x, logout, id);
    ClosedAbout(ps, id, Rejected, Proposed);
    assert logout in About(ClosedProposals(ps, id, Rejected), x, Proposed);
  }

  lemma WithdrawPaused(s: Realm, id: Id)
    requires RealmOk(s) && id in s.gov.proposals && s.gov.proposals[id].status == Paused
    ensures Close(s, s.gov.proposals[id], Rejected).Some?
    ensures !RealmOk(Close(s, s.gov.proposals[id], Rejected).value)
  {
    hide GovOk, RoleOk, About, Close, ClosedProposals, ClosedGov, Fire, NextEvent;
    var x := s.gov.proposals[id].objId;
    HasLocks(s.gov);
    IsKeyed(s.gov);
    CloseShape(s, id, Rejected);
    ClosedGovOk(s.gov, id, Rejected);
    assert RoleOk(s.gov.proposals, StatusOf(s.roles, x), x);
    PausedMoves(s.gov.proposals, StatusOf(s.roles, x), id);
    PausedShape(s.gov.proposals, StatusOf(s.roles, x), id);
    var t := Close(s, s.gov.proposals[id], Rejected).value;
    assert !RoleOk(t.gov.proposals, StatusOf(t.roles, x), x);
  }

  lemma HasDash(g: Gov, id: Id)
    requires GovOk(g) && id in g.proposals
    ensures '-' in id
  {
    hide IndexOk, Locks, Tallied;
    var n: nat :| id == MakeId(FromOf(id), n);
    assert id[|FromOf(id)|] == '-';
  }

  /** A withdrawal goes through exactly for the sender of a proposal that is not closed, and
      gives the role back the status it had. */
  lemma WithdrawOutcome(s: Realm, caller: string, id: Id)
    requires RealmOk(s)
    ensures Withdraw(s, caller, id).Some? <==>
            id in s.gov.proposals && s.gov.proposals[id].status in {Proposed, Paused} && caller == FromOf(id)
    ensures Withdraw(s, caller, id).Some? ==>
            Ended(s, Withdraw(s, caller, id).value, id, s.gov.proposals[id].(status := Rejected))
  {
    hide RealmOk, Close, Ended;
    GovOf(s);
    if id in s.gov.proposals {
      HasDash(s.gov, id);
      if s.gov.proposals[id].status == Proposed {
        CloseOutcome(s, id, Rejected);
      } else if s.gov.proposals[id].status == Paused {
        PausedOutcome(s, id);
      }
    }
  }

  lemma PausedOutcome(s: Realm, id: Id)
    requires RealmOk(s) && id in s.gov.proposals && s.gov.proposals[id].status == Paused
    ensures Close(s, s.gov.proposals[id], Rejected).Some?
    ensures Ended(s, Close(s, s.gov.proposals[id], Rejected).value, id, s.gov.proposals[id].(status := Rejected))
  {
    hide GovOk, RoleOk, About, Close, ClosedGov;
    var ps := s.gov.proposals;
    var x := ps[id].objId;
    HasLocks(s.gov);
    IsKeyed(s.gov);
    CloseShape(s, id, Rejected);
    ClosedGovOk(s.gov, id, Rejected);
    assert RoleOk(ps, StatusOf(s.roles, x), x);
    PausedShape(ps, StatusOf(s.roles, x), id);
  }

  /** The sender of a proposal that is not closed can always withdraw it.  That keeps roles
      and proposals in step exactly when the proposal is open: withdrawing a paused one moves
      the role out from under the logout that locked it. */
  lemma WithdrawKeepsIff(s: Realm, id: Id)
    requires RealmOk(s) && id in s.gov.proposals && s.gov.proposals[id].status in {Proposed, Paused}
    ensures Withdraw(s, FromOf(id), id).Some?
    ensures RealmOk(Withdraw(s, FromOf(id), id).value) <==> s.gov.proposals[id].status == Proposed
  {
    hide RealmOk, Close;
    GovOf(s);
    HasDash(s.gov, id);
    if s.gov.proposals[id].status == Proposed {
      CloseStep(s, id, Rejected);
    } else {
      WithdrawPaused(s, id);
    }
  }

  // ---- runs -----------------------------------------------------------------------------------------------------

  datatype RealmOp =
    | DoRegister(env: Env, role: Address, undone: bool)
    | DoGovern(env: Env, role: Address, event: Event)
    | DoVote(id: Id, addr: Address, choice: Choice)
    | DoWithdraw(caller: string, id: Id)

  function Attempt(s: Realm, op: RealmOp): Option<Realm> {
    match op
    case DoRegister(env, role, _) => RegisterRole(s, env, role)
    case DoGovern(env, role, event) => Govern(s, env, role, event)
    case DoVote(id, addr, choice) => CastVote(s, id, addr, choice)
    case DoWithdraw(caller, id) => Withdraw(s, caller, id)
  }

  /** A registration that passes its own checks stores the role before the proposal is
      refused; whether the executor undoes that is left open.  Every other call that fails
      has written nothing. */
  function Unfinished(s: Realm, env: Env, x: Address): Realm {
    if env.permitted && StatusOf(s.roles, x) in Startable(Register)
    then s.(roles := s.roles[x := Role(NORMAL_WEIGHT, Unavailable)]) else s
  }

  function RealmApply(s: Realm, op: RealmOp): Realm {
    match Attempt(s, op)
    case None => if op.DoRegister? && !op.undone then Unfinished(s, op.env, op.role) else s
    case Some(t) => t
  }

  predicate EnvOk(env: Env) {
    SepFree(env.from, '-') && |env.electorate| < UINT64
  }

  predicate RealmLegal(s: Realm, op: RealmOp) {
    match op
    case DoRegister(env, _, _) => EnvOk(env)
    case DoGovern(env, _, event) => EnvOk(env) && event in {Freeze, Activate, Logout}
    case DoVote(_, _, _) => true
    case DoWithdraw(_, id) => id in s.gov.proposals ==> s.gov.proposals[id].status != Paused
  }

  function RealmRun(s: Realm, ops: seq<RealmOp>): Realm
    decreases |ops|
  {
    if ops == [] then s else RealmRun(RealmApply(s, ops[0]), ops[1..])
  }

  predicate RealmLegalRun(s: Realm, ops: seq<RealmOp>)
    decreases |ops|
  {
    ops == [] || (RealmLegal(s, ops[0]) && RealmLegalRun(RealmApply(s, ops[0]), ops[1..]))
  }

  lemma UnfinishedStep(s: Realm, env: Env, x: Address)
    requires RealmOk(s)
    ensures RealmOk(Unfinished(s, env, x))
  {
    hide GovOk, RoleOk;
    assert forall y: string :: StatusOf(Unfinished(s, env, x).roles, y) == StatusOf(s.roles, y);
  }

  lemma RegisterStep(s: Realm, env: Env, x: Address)
    requires RealmOk(s) && EnvOk(env) && RegisterRole(s, env, x).Some?
    ensures RealmOk(RegisterRole(s, env, x).value)
  {
    hide GovOk, RoleOk, SubmitProposal;
    var t := s.(roles := s.roles[x := Role(NORMAL_WEIGHT, Unavailable)]);
    assert forall y: string :: StatusOf(t.roles, y) == StatusOf(s.roles, y);
    SubmitRealm(t, env, x, Register);
  }

  lemma RealmStep(s: Realm, op: RealmOp)
    requires RealmOk(s) && RealmLegal(s, op)
    ensures RealmOk(RealmApply(s, op))
  {
    hide RealmOk, RegisterRole, Submit, CastVote, Withdraw, Startable;
    match op
    case DoRegister(env, x, _) =>
      if RegisterRole(s, env, x).Some? {
        RegisterStep(s, env, x);
      } else {
        UnfinishedStep(s, env, x);
      }
    case DoGovern(env, x, event) => if Govern(s, env, x, event).Some? { SubmitRealm(s, env, x, event); }
    case DoVote(id, addr, choice) => if CastVote(s, id, addr, choice).Some? { VoteStep(s, id, addr, choice); }
    case DoWithdraw(caller, id) =>
      if Withdraw(s, caller, id).Some? {
        WithdrawOpen(s, caller, id);
        WithdrawKeepsIff(s, id);
      }
  }

  lemma WithdrawOpen(s: Realm, caller: string, id: Id)
    requires Withdraw(s, caller, id).Some? && (id in s.gov.proposals ==> s.gov.proposals[id].status != Paused)
    ensures id in s.gov.proposals && s.gov.proposals[id].status == Proposed && caller == FromOf(id)
  {
    hide Close;
  }

  /** Over every run of registering, freezing, activating, logging out, voting and
      withdrawing open proposals, every role's status matches its proposals. */
  lemma {:induction false} RealmRunOk(s: Realm, ops: seq<RealmOp>)
    requires RealmOk(s) && RealmLegalRun(s, ops)
    ensures RealmOk(RealmRun(s, ops))
    decreases |ops|
  {
    hide RealmOk, RealmApply, RealmLegal;
    if ops != [] {
      RealmStep(s, ops[0]);
      RealmRunOk(RealmApply(s, ops[0]), ops[1..]);
    }
  }

  /** The genesis state: admins that are available, and no proposals. */
  lemma GenesisOk(roles: map<Address, Role>)
    requires forall x | x in roles :: roles[x].status == Available
    ensures RealmOk(Realm(roles, NO_PROPOSALS))
  {
    EmptyGovOk();
    assert forall x: string, status :: About(map[], x, status) == {};
  }

  // ---- a run that breaks the agreement ------------------------------------------------------------------------

  /** The calls go through as far as role and strategy are concerned. */
  predicate Governed(s: Realm, env: Env, x: Address) {
    && env.permitted && EnvOk(env) && x in s.roles && s.roles[x].weight != SUPER_WEIGHT
    && Strategy.Threshold(env.strategy, 0, 0, |env.electorate|, |env.electorate|).Some?
  }

  /** Exactly which requests go through, and what they leave: the role on its way, and one new
      proposal about it. */
  lemma GovernOutcome(s: Realm, env: Env, x: Address, event: Event)
    requires RealmOk(s) && EnvOk(env) && event in {Freeze, Activate, Logout}
    ensures Govern(s, env, x, event).Some? <==>
            && env.permitted && x in s.roles && s.roles[x].weight != SUPER_WEIGHT
            && s.roles[x].status in (if event == Freeze then {Available} else if event == Activate then {Frozen}
                                     else {Available, Freezing, Activating, Frozen})
            && Strategy.Threshold(env.strategy, 0, 0, |env.electorate|, |env.electorate|).Some?
    ensures Govern(s, env, x, event).Some? ==>
            var t := Govern(s, env, x, event).value;
            && t.roles == s.roles[x := s.roles[x].(status :=
                 if event == Freeze then Freezing else if event == Activate then Activating else Logouting)]
            && Opened(s, t, Submission(env.from, event, ROLE_MGR, x, s.roles[x].status, env.electorate, env.strategy))
  {
    hide GovOk, RoleOk, Strategy.Threshold, SubmitProposal, Opened;
    assert RoleOk(s.gov.proposals, StatusOf(s.roles, x), x);
    NeverBinding(s.gov.proposals, StatusOf(s.roles, x), x);
    var sub := SubmissionOf(s, env, x, event);
    SubmitStep(s.gov, sub);
    if Governed(s, env, x) && s.roles[x].status in Startable(event) {
      GovernSucceeds(s, env, x, event);
      SubmitOpened(s, Govern(s, env, x, event).value, sub);
    }
  }

  lemma NeverBinding(ps: Proposals, status: ObjStatus, x: string)
    requires RoleOk(ps, status, x)
    ensures status != Binding
  {
  }

  /** t has one proposal more than s, the one that was asked for, under the next id of its
      sender; it paused the proposal that it locked. */
  ghost predicate Opened(s: Realm, t: Realm, sub: Submission) {
    var id := sub.from + "-" + Itoa(|At(s.gov.byFrom, sub.from)|);
    && id !in s.gov.proposals && t.gov.proposals.Keys == s.gov.proposals.Keys + {id}
    && NewlyOpen(t.gov.proposals[id], sub)
    && forall j | j in s.gov.proposals ::
         t.gov.proposals[j] ==
         if t.gov.proposals[id].lock == Some(j) then s.gov.proposals[j].(status := Paused) else s.gov.proposals[j]
  }

  lemma SubmitOpened(s: Realm, t: Realm, sub: Submission)
    requires GovOk(s.gov) && SepFree(sub.from, '-') && |sub.electorate| < UINT64
    requires SubmitProposal(s.gov, sub).Some? && t.gov == SubmitProposal(s.gov, sub).value.0
    ensures Opened(s, t, sub)
  {
    hide GovOk, SubmitProposal, NewlyOpen, Lockable;
    SubmitStep(s.gov, sub);
    SubmitOutcome(s.gov, sub);
  }

  /** The same for a registration. */
  lemma RegisterOutcome(s: Realm, env: Env, x: Address)
    requires RealmOk(s) && EnvOk(env)
    ensures RegisterRole(s, env, x).Some? <==>
            && env.permitted && (x in s.roles ==> s.roles[x].status == Unavailable)
            && Strategy.Threshold(env.strategy, 0, 0, |env.electorate|, |env.electorate|).Some?
    ensures RegisterRole(s, env, x).Some? ==>
            var t := RegisterRole(s, env, x).value;
            && t.roles == s.roles[x := Role(NORMAL_WEIGHT, Registering)]
            && Opened(s, t, Submission(env.from, Register, ROLE_MGR, x, Unavailable, env.electorate, env.strategy))
  {
    hide GovOk, RoleOk, Strategy.Threshold, SubmitProposal, Opened;
    var sub := Submission(env.from, Register, ROLE_MGR, x, Unavailable, env.electorate, env.strategy);
    SubmitStep(s.gov, sub);
    if env.permitted && StatusOf(s.roles, x) in Startable(Register) && InitialThreshold(sub).Some? {
      RegisterSucceeds(s, env, x);
      SubmitOpened(s, RegisterRole(s, env, x).value, sub);
    }
  }

  /** A logout of a role with an open proposal pauses that proposal. */
  lemma SubmitPauses(g: Gov, sub: Submission) returns (q: Id)
    requires GovOk(g) && SepFree(sub.from, '-') && |sub.electorate| < UINT64
    requires RoleOk(g.proposals, sub.objLast, sub.objId) && sub.event == Logout
    requires sub.objLast in {Freezing, Activating} && SubmitProposal(g, sub).Some?
    ensures q in About(SubmitProposal(g, sub).value.0.proposals, sub.objId, Paused)
  {
    hide GovOk, SubmitProposal, Lockee, About, IsSpecial;
    q := OpenProposal(g.proposals, sub.objLast, sub.objId);
    assert q in About(g.proposals, sub.objId, Proposed);
    LockeeIs(g, sub.objId, sub.event);
    SubmittedAbout(g, sub, Paused);
  }

  function SubmissionOf(s: Realm, env: Env, x: Address, event: Event): Submission {
    Submission(env.from, event, ROLE_MGR, x, StatusOf(s.roles, x), env.electorate, env.strategy)
  }

  lemma GovernSucceeds(s: Realm, env: Env, x: Address, event: Event)
    requires RealmOk(s) && Governed(s, env, x) && event in {Freeze, Activate, Logout}
    requires s.roles[x].status in Startable(event)
    ensures Govern(s, env, x, event).Some? && RealmOk(Govern(s, env, x, event).value)
    ensures var t := Govern(s, env, x, event).value;
            && x in t.roles && t.roles[x].weight == s.roles[x].weight
            && Some(t.roles[x].status) == Fire(s.roles[x].status, event, s.roles[x].status)
            && SubmitProposal(s.gov, SubmissionOf(s, env, x, event)).Some?
            && t.gov == SubmitProposal(s.gov, SubmissionOf(s, env, x, event)).value.0
  {
    hide GovOk, RoleOk, Strategy.Threshold, SubmitProposal;
    var sub := SubmissionOf(s, env, x, event);
    SubmitStep(s.gov, sub);
    assert RoleOk(s.gov.proposals, StatusOf(s.roles, x), x);
    SubmitRole(s.gov, sub);
    SubmitRealm(s, env, x, event);
  }

  /** A registration whose proposal is accepted goes through. */
  lemma RegisterSucceeds(s: Realm, env: Env, x: Address)
    requires RealmOk(s) && EnvOk(env) && env.permitted && StatusOf(s.roles, x) in Startable(Register)
    requires Strategy.Threshold(env.strategy, 0, 0, |env.electorate|, |env.electorate|).Some?
    ensures RegisterRole(s, env, x).Some?
  {
    hide GovOk, RoleOk, Strategy.Threshold, SubmitProposal;
    var sub := Submission(env.from, Register, ROLE_MGR, x, Unavailable, env.electorate, env.strategy);
    SubmitStep(s.gov, sub);
    assert RoleOk(s.gov.proposals, StatusOf(s.roles, x), x);
    SubmitRole(s.gov, sub);
  }

  lemma RoleOkAt(s: Realm, x: string)
    requires RealmOk(s)
    ensures GovOk(s.gov) && RoleOk(s.gov.proposals, StatusOf(s.roles, x), x)
  {
  }

  lemma Listed(ps: Proposals, x: string, id: Id)
    requires id in About(ps, x, Paused)
    ensures id in ps && ps[id].objId == x && ps[id].status == Paused
  {
  }

  /** Freezing a role and then logging it out leaves the freeze paused; its sender can then
      withdraw it, and role and proposals are no longer in step. */
  lemma PausedRun(s: Realm, env: Env, x: Address) returns (id: Id)
    requires RealmOk(s) && Governed(s, env, x) && s.roles[x].status == Available
    ensures var ops := [DoGovern(env, x, Freeze), DoGovern(env, x, Logout)];
            var t := RealmRun(s, ops);
            && RealmLegalRun(s, ops) && RealmOk(t)
            && id in t.gov.proposals && t.gov.proposals[id].objId == x && t.gov.proposals[id].status == Paused
            && !RealmOk(RealmRun(s, ops + [DoWithdraw(FromOf(id), id)]))
  {
    hide RealmOk, Govern, Withdraw, GovOk, RoleOk, SubmitProposal, Strategy.Threshold, About;
    var freeze, logout := DoGovern(env, x, Freeze), DoGovern(env, x, Logout);
    GovernSucceeds(s, env, x, Freeze);
    var t1 := Govern(s, env, x, Freeze).value;
    assert t1.roles[x].status == Freezing;
    GovernSucceeds(t1, env, x, Logout);
    var t := Govern(t1, env, x, Logout).value;
    RoleOkAt(t1, x);
    id := SubmitPauses(t1.gov, SubmissionOf(t1, env, x, Logout));
    Listed(t.gov.proposals, x, id);
    WithdrawKeepsIff(t, id);
    ThreeSteps(s, t1, t, freeze, logout, DoWithdraw(FromOf(id), id));
  }

  lemma ThreeSteps(s: Realm, t1: Realm, t2: Realm, a: RealmOp, b: RealmOp, c: RealmOp)
    requires t1 == RealmApply(s, a) && t2 == RealmApply(t1, b)
    ensures RealmRun(s, [a, b]) == t2 && RealmRun(s, [a, b] + [c]) == RealmApply(t2, c)
    ensures RealmLegal(s, a) && RealmLegal(t1, b) ==> RealmLegalRun(s, [a, b])
  {
    hide RealmApply, RealmLegal;
    assert [a, b][1..] == [b] && [b][1..] == [];
    assert RealmRun(t1, [b]) == RealmRun(t2, []) == t2;
    assert RealmLegal(t1, b) ==> RealmLegalRun(t1, [b]);
    var all := [a, b] + [c];
    assert all[1..] == [b, c] && [b, c][1..] == [c] && [c][1..] == [];
    assert RealmRun(t2, [c]) == RealmRun(RealmApply(t2, c), []);
    assert RealmRun(t1, [b, c]) == RealmRun(t2, [c]);
  }

  /** Such a run starts from a genesis of two admins under the default strategy. */
  lemma PausedFromGenesis() returns (id: Id)
    ensures var admin := Elector("a", NORMAL_WEIGHT);
            var genesis := Realm(map["a" := Role(SUPER_WEIGHT, Available), "b" := Role(NORMAL_WEIGHT, Available)],
                                 NO_PROPOSALS);
            var env := Env("a", true, [admin], Strategy.SimpleMajority);
            var ops := [DoGovern(env, "b", Freeze), DoGovern(env, "b", Logout)];
            && RealmOk(genesis) && RealmLegalRun(genesis, ops)
            && !RealmOk(RealmRun(genesis, ops + [DoWithdraw(FromOf(id), id)]))
  {
    hide RealmOk, RealmRun, RealmLegalRun;
    var roles := map["a" := Role(SUPER_WEIGHT, Available), "b" := Role(NORMAL_WEIGHT, Available)];
    var env := Env("a", true, [Elector("a", NORMAL_WEIGHT)], Strategy.SimpleMajority);
    GenesisOk(roles);
    Strategy.SimpleMajorityMonotone(1, 1);
    Strategy.SomeThreshold(Strategy.SimpleMajority, 0, 0, 1, 1, 1);
    id := PausedRun(Realm(roles, NO_PROPOSALS), env, "b");
  }

  /** By the time `LogoutRole` asks whether the role is available, it no longer is. */
  lemma LogoutAsksTooLate(s: Realm, env: Env, x: Address)
    requires Govern(s, env, x, Logout).Some?
    ensures !AvailableAdmin(Govern(s, env, x, Logout).value.roles, x)
  {
    hide SubmitProposal;
  }
}
