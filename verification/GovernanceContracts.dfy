/** The governance and role contracts as objects whose stores are updated in place.  Where
    roles and proposals agree, a call that reports failure has written nothing; only a
    registration leaves the role that it stored. */
module GovernanceContracts {
  import opened GoBytes
  import opened Voting
  import G = Governance
  import R = RoleLifecycle
  import Strategy

  class GovernanceContract {
    var proposals: map<Id, Proposal>
    var byFrom: map<string, seq<Id>>
    var byObj: map<string, seq<Id>>
    var byTyp: map<string, seq<Id>>
    var byStatus: map<ProposalStatus, seq<Id>>

    function State(): G.Gov
      reads this
    {
      G.Gov(proposals, byFrom, byObj, byTyp, byStatus)
    }

    method AddProposal(p: Proposal)
      modifies this
      ensures State() == G.AddProposal(old(State()), p)
    {
      proposals := proposals[p.id := p];
      byFrom := G.Insert(byFrom, G.FromOf(p.id), p.id);
      byObj := G.Insert(byObj, p.objId, p.id);
      byTyp := G.Insert(byTyp, p.typ, p.id);
      byStatus := G.Insert(byStatus, p.status, p.id);
    }

    method ChangeProposalStatus(p: Proposal, status: ProposalStatus) returns (q: Proposal)
      modifies this
      ensures State() == G.ChangeProposalStatus(old(State()), p, status)
      ensures q == p.(status := status)
    {
      byStatus := G.Remove(byStatus, p.status, p.id);
      byStatus := G.Insert(byStatus, status, p.id);
      q := p.(status := status);
      proposals := proposals[p.id := q];
    }

    /** The proposals of an index, or nothing when one of them is missing. */
    method Load(ids: seq<Id>) returns (found: Option<seq<Proposal>>)
      ensures found.Some? <==> G.AllPresent(proposals, ids)
      ensures found.Some? ==> |found.value| == |ids|
                              && forall i | 0 <= i < |ids| :: found.value[i] == proposals[ids[i]]
    {
      var list := [];
      for i := 0 to |ids|
        invariant |list| == i
        invariant forall j | 0 <= j < i :: ids[j] in proposals && list[j] == proposals[ids[j]]
      {
        if ids[i] !in proposals {
          return None;
        }
        list := list + [proposals[ids[i]]];
      }
      return Some(list);
    }

    /** The search of `lockLowPriorityProposal`. */
    method FindLockable(ids: seq<Id>, loaded: seq<Proposal>, event: Event) returns (k: Option<nat>)
      requires |loaded| == |ids| && forall i | 0 <= i < |ids| :: ids[i] in proposals && loaded[i] == proposals[ids[i]]
      ensures k.Some? ==> k.value < |ids|
      ensures G.FindLockable(proposals, ids, event) == if k.None? then None else Some(ids[k.value])
    {
      hide G.Priority;
      var i := 0;
      while i < |ids|
        invariant 0 <= i <= |ids|
        invariant G.FindLockable(proposals, ids, event) == G.FindLockable(proposals, ids[i..], event)
      {
        var p := loaded[i];
        if p.status == Proposed && G.Priority(p.event) < G.Priority(event) {
          return Some(i);
        }
        assert ids[i..][1..] == ids[i + 1..];
        i := i + 1;
      }
      return None;
    }

    method LockLowPriorityProposal(objId: string, event: Event) returns (ok: bool, lock: Option<Id>)
      requires G.Keyed(proposals)
      modifies this
      ensures ok <==> G.AllPresent(old(proposals), G.At(old(byObj), objId))
      ensures !ok ==> State() == old(State())
      ensures ok ==> (State(), lock) == G.LockLowPriorityProposal(old(State()), objId, event)
    {
      hide G.ChangeProposalStatus, G.Priority;
      var ids := G.At(byObj, objId);
      var found := Load(ids);
      if found.None? {
        return false, None;
      }
      var k := FindLockable(ids, found.value, event);
      if k.None? {
        return true, None;
      }
      var locked := ChangeProposalStatus(found.value[k.value], Paused);
      return true, Some(locked.id);
    }

    /** `unlockLowPriorityProposal`. */
    method UnlockLowPriorityProposal(id: Id, restore: bool) returns (next: Option<Event>)
      modifies this
      ensures next.Some? <==> id in old(proposals)
      ensures id in old(proposals) ==>
              && next == Some(old(proposals)[id].event)
              && State() ==
                 G.ChangeProposalStatus(old(State()), old(proposals)[id], if restore then Proposed else Rejected)
    {
      if id !in proposals {
        return None;
      }
      var locked := proposals[id];
      if restore {
        locked := ChangeProposalStatus(locked, Proposed);
      } else {
        locked := ChangeProposalStatus(locked, Rejected);
      }
      return Some(locked.event);
    }

    method FindVoter(electorate: seq<Elector>, addr: Address) returns (e: Option<Elector>)
      ensures e == FindElector(electorate, addr)
    {
      var i := 0;
      while i < |electorate|
        invariant 0 <= i <= |electorate|
        invariant FindElector(electorate, addr) == FindElector(electorate[i..], addr)
      {
        if electorate[i].id == addr {
          return Some(electorate[i]);
        }
        assert electorate[i..][1..] == electorate[i + 1..];
        i := i + 1;
      }
      return None;
    }

    /** `setVote`: finds the voter in the electorate and stores the ballot. */
    method SetVote(p: Proposal, addr: Address, choice: Choice) returns (r: Outcome)
      modifies this
      ensures r == Voting.SetVote(p, addr, choice)
      ensures State() == if r.Voted? then G.Put(old(State()), r.p) else old(State())
    {
      hide Strategy.Threshold, Strategy.IsLeast;
      if p.status != Proposed {
        return Refused(Ended);
      }
      var e := FindVoter(p.electorate, addr);
      if e.None? {
        return Refused(NoPermission);
      }
      if addr in p.ballots {
        return Refused(Repeated);
      }
      var q := p.(ballots := p.ballots[addr := Ballot(choice == For, e.value.weight)],
                  superVoted := p.superVoted || e.value.weight == SUPER_WEIGHT);
      match choice {
        case For => q := q.(approveNum := q.approveNum + 1);
        case Against => q := q.(againstNum := q.againstNum + 1);
        case Illegible => return Refused(IllegalVote);
      }
      var threshold := Strategy.GetCurThresholdApproveNum(
        q.strategy, q.approveNum, q.againstNum, q.initialNum, q.availableNum);
      if threshold.None? {
        return Refused(NoThreshold);
      }
      q := q.(thresholdNum := threshold.value);
      proposals := proposals[q.id := q];
      return Voted(q);
    }

    /** `SubmitProposal`: the id of the new proposal. */
    method SubmitProposal(s: G.Submission) returns (id: Option<Id>)
      requires G.GovOk(State())
      modifies this
      ensures var spec := G.SubmitProposal(old(State()), s);
              if spec.None? then id.None? && State() == old(State())
              else id == Some(spec.value.1) && State() == spec.value.0
    {
      hide G.IndexOk, G.Numbered, G.Locks, G.Tallied, G.AddProposal, G.LockLowPriorityProposal,
        Strategy.Threshold, Strategy.IsLeast, G.MakeId;
      var mine := Load(G.At(byFrom, s.from));
      if mine.None? {
        return None;
      }
      var n := |s.electorate|;
      var threshold := Strategy.GetCurThresholdApproveNum(s.strategy, 0, 0, n, n);
      if threshold.None? {
        return None;
      }
      var ok, lock := LockLowPriorityProposal(s.objId, s.event);
      if !ok {
        return None;
      }
      var p := G.NewProposal(s, G.MakeId(s.from, |mine.value|), threshold.value, lock);
      AddProposal(p);
      return Some(p.id);
    }

    /** `handleResult` for a proposal about a role. */
    method HandleResult(p: Proposal, rm: RoleManager) returns (ok: bool)
      requires rm.gov == this
      modifies this, rm
      ensures var spec := R.HandleResult(R.Realm(old(rm.roles), old(State())), p);
              if ok then spec == Some(rm.State()) else spec.None?
    {
      var next := R.EventOf(p.status);
      if p.lock.Some? {
        var unlocked := UnlockLowPriorityProposal(p.lock.value, p.status != Approved);
        if unlocked.None? {
          return false;
        }
        if p.status != Approved {
          next := unlocked.value;
        }
      }
      ok := rm.ChangeStatus(p.objId, next, p.objLast);
    }

    method Vote(id: Id, addr: Address, choice: Choice, rm: RoleManager) returns (ok: bool)
      requires rm.gov == this && G.Keyed(proposals)
      modifies this, rm
      ensures var spec := R.CastVote(old(rm.State()), id, addr, choice);
              if ok then spec == Some(rm.State()) else spec.None?
      ensures !ok && R.RealmOk(old(rm.State())) ==> rm.State() == old(rm.State())
    {
      hide R.RealmOk;
      ghost var s := rm.State();
      if !R.AvailableAdmin(rm.roles, addr) || id !in proposals {
        return false;
      }
      var r := SetVote(proposals[id], addr, choice);
      if r.Refused? {
        return false;
      }
      if R.RealmOk(s) {
        R.VoteSucceeds(s, id, addr, choice);
      }
      var counted := CountVote(r.p);
      if counted.None? {
        return false;
      }
      if counted.value == r.p.status {
        return true;
      }
      var q := ChangeProposalStatus(r.p, counted.value);
      ok := HandleResult(q, rm);
    }

    method WithdrawProposal(caller: string, id: Id, rm: RoleManager) returns (ok: bool)
      requires rm.gov == this
      modifies this, rm
      ensures var spec := R.Withdraw(old(rm.State()), caller, id);
              if ok then spec == Some(rm.State()) else spec.None?
      ensures !ok && R.RealmOk(old(rm.State())) ==> rm.State() == old(rm.State())
    {
      hide R.RealmOk;
      if !R.MayWithdraw(caller, id) || id !in proposals || proposals[id].status in {Approved, Rejected} {
        return false;
      }
      if R.RealmOk(rm.State()) {
        assert proposals[id].status == Proposed || proposals[id].status == Paused;
        R.WithdrawKeepsIff(rm.State(), id);
      }
      var q := ChangeProposalStatus(proposals[id], Rejected);
      ok := HandleResult(q, rm);
    }
  }

  class RoleManager {
    var roles: map<Address, R.Role>
    const gov: GovernanceContract

    constructor (genesis: map<Address, R.Role>, gov: GovernanceContract)
      ensures roles == genesis && this.gov == gov
    {
      roles, this.gov := genesis, gov;
    }

    function State(): R.Realm
      reads this, gov
    {
      R.Realm(roles, gov.State())
    }

    method ChangeStatus(id: Address, event: Event, last: ObjStatus) returns (ok: bool)
      modifies this
      ensures var spec := R.ChangeStatus(old(roles), id, event, last);
              if ok then spec == Some(roles) else spec.None? && roles == old(roles)
    {
      if id !in roles {
        return false;
      }
      var to := R.Fire(roles[id].status, event, last);
      if to.None? {
        return false;
      }
      roles := roles[id := roles[id].(status := to.value)];
      return true;
    }

    method RegisterRole(env: R.Env, id: Address) returns (ok: bool)
      requires G.GovOk(gov.State())
      modifies this, gov
      ensures var spec := R.RegisterRole(old(State()), env, id);
              if ok then spec == Some(State()) else spec.None?
      ensures !ok && R.RealmOk(old(State())) && R.EnvOk(env) ==> State() == R.Unfinished(old(State()), env, id)
    {
      hide R.RealmOk;
      ghost var s := State();
      if !env.permitted || (id in roles && roles[id].status !in R.Startable(Register)) {
        return false;
      }
      roles := roles[id := R.Role(NORMAL_WEIGHT, Unavailable)];
      var p := gov.SubmitProposal(
        G.Submission(env.from, Register, G.ROLE_MGR, id, Unavailable, env.electorate, env.strategy));
      if p.None? {
        return false;
      }
      if R.RealmOk(s) && R.EnvOk(env) {
        R.RegisterSucceeds(s, env, id);
      }
      ok := ChangeStatus(id, Register, Unavailable);
    }

    /** `basicGovernance`. */
    method Govern(env: R.Env, id: Address, event: Event) returns (ok: bool)
      requires G.GovOk(gov.State())
      modifies this, gov
      ensures var spec := R.Govern(old(State()), env, id, event);
              if ok then spec == Some(State()) else spec.None?
      ensures !ok && R.RealmOk(old(State())) && R.EnvOk(env) && event in {Freeze, Activate, Logout} ==>
              State() == old(State())
    {
      hide R.RealmOk, R.EnvOk, R.Fire, R.Startable, G.GovOk, Strategy.Threshold;
      ghost var s := State();
      if !env.permitted || id !in roles || roles[id].status !in R.Startable(event) {
        return false;
      }
      if event == Bind || roles[id].weight == SUPER_WEIGHT {
        return false;
      }
      var last := roles[id].status;
      var p := gov.SubmitProposal(
        G.Submission(env.from, event, G.ROLE_MGR, id, last, env.electorate, env.strategy));
      if p.None? {
        return false;
      }
      if R.RealmOk(s) && R.EnvOk(env) && event in {Freeze, Activate, Logout} {
        R.GovernSucceeds(s, env, id, event);
      }
      ok := ChangeStatus(id, event, last);
    }
  }
}
