/** Proposals of governance.go and the vote on one of them. */
module Voting {
  import opened GoBytes
  import Strategy

  type Id = string
  type Address = string

  datatype ProposalStatus = Proposed | Approved | Rejected | Paused

  /** The events of the governance state machines. */
  datatype Event =
    | Register | Update | Freeze | Activate | Bind | Unbind | Logout
    | Pause | Unpause | Clear | Approve | Reject

  /** The statuses of a governed object. */
  datatype ObjStatus =
    | Unavailable | Registering | Available | Freezing | Frozen | Activating
    | Logouting | Forbidden | Binding

  datatype Elector = Elector(id: Address, weight: nat)

  datatype Ballot = Ballot(approve: bool, weight: nat)

  datatype Proposal = Proposal(
    id: Id, typ: string, status: ProposalStatus, objId: string, objLast: ObjStatus,
    ballots: map<Address, Ballot>, approveNum: nat, againstNum: nat,
    electorate: seq<Elector>, initialNum: nat, availableNum: nat, thresholdNum: nat,
    event: Event, lock: Option<Id>, special: bool, superVoted: bool, strategy: Strategy.Expr)

  const SUPER_WEIGHT: nat := 2

  const NORMAL_WEIGHT: nat := 1

  datatype Choice = For | Against | Illegible

  datatype VoteError = Ended | NoPermission | Repeated | IllegalVote | NoThreshold | NoDecision

  datatype Outcome = Voted(p: Proposal) | Refused(error: VoteError)

  function FindElector(electorate: seq<Elector>, addr: Address): (e: Option<Elector>)
    ensures e.Some? ==> e.value in electorate && e.value.id == addr
    ensures e.None? ==> forall i | 0 <= i < |electorate| :: electorate[i].id != addr
  {
    if electorate == [] then None
    else if electorate[0].id == addr then Some(electorate[0])
    else FindElector(electorate[1..], addr)
  }

  /** The proposal with one more ballot, before the threshold is worked out. */
  function WithBallot(p: Proposal, e: Elector, approve: bool): Proposal {
    var q := p.(ballots := p.ballots[e.id := Ballot(approve, e.weight)],
                superVoted := p.superVoted || e.weight == SUPER_WEIGHT);
    if approve then q.(approveNum := q.approveNum + 1) else q.(againstNum := q.againstNum + 1)
  }

  function ThresholdOf(p: Proposal): Option<nat> {
    Strategy.Threshold(p.strategy, p.approveNum, p.againstNum, p.initialNum, p.availableNum)
  }

  function SetVote(p: Proposal, addr: Address, choice: Choice): Outcome {
    if p.status != Proposed then Refused(Ended)
    else
      var e := FindElector(p.electorate, addr);
      if e.None? then Refused(NoPermission)
      else if addr in p.ballots then Refused(Repeated)
      else if choice == Illegible then Refused(IllegalVote)
      else
        var q := WithBallot(p, e.value, choice == For);
        var threshold := ThresholdOf(q);
        if threshold.None? then Refused(NoThreshold) else Voted(q.(thresholdNum := threshold.value))
  }

  function DecisionOf(p: Proposal): Option<Strategy.Decision> {
    Strategy.MakeStrategyDecision(p.strategy, p.approveNum, p.againstNum, p.initialNum, p.availableNum)
  }

  /** A special proposal waits for the vote of a super admin. */
  predicate Withheld(p: Proposal) {
    p.special && !p.superVoted
  }

  /** `countVote`: the status after the last ballot. */
  function CountVote(p: Proposal): Option<ProposalStatus> {
    if Withheld(p) then Some(p.status)
    else
      match DecisionOf(p)
      case None => None
      case Some(d) => Some(if !d.ended then p.status else if d.pass then Approved else Rejected)
  }

  /** `Vote`, up to the handling of its result. */
  function Vote(p: Proposal, addr: Address, choice: Choice): Outcome {
    match SetVote(p, addr, choice)
    case Refused(error) => Refused(error)
    case Voted(q) =>
      match CountVote(q)
      case None => Refused(NoDecision)
      case Some(status) => Voted(q.(status := status))
  }

  // ---- what every vote keeps ---------------------------------------------------------------------

  function Voters(ballots: map<Address, Ballot>, approve: bool): set<Address> {
    set a | a in ballots && ballots[a].approve == approve
  }

  function ElectorIds(electorate: seq<Elector>): set<Address> {
    set e | e in electorate :: e.id
  }

  predicate SuperVoted(ballots: map<Address, Ballot>) {
    exists a :: a in ballots && ballots[a].weight == SUPER_WEIGHT
  }

  /** The stored tallies are the counts of the ballots. */
  predicate TalliesOk(p: Proposal) {
    && p.approveNum == |Voters(p.ballots, true)| && p.againstNum == |Voters(p.ballots, false)|
    && p.ballots.Keys <= ElectorIds(p.electorate)
    && p.initialNum == p.availableNum == |p.electorate| < UINT64
    && (p.superVoted <==> SuperVoted(p.ballots))
  }

  /** The status is what the ballots so far decide. */
  predicate StatusOk(p: Proposal) {
    match p.status
    case Proposed => p.ballots == map[] || Withheld(p) || DecisionOf(p) == Some(Strategy.WAITING)
    case Approved => !Withheld(p) && DecisionOf(p) == Some(Strategy.APPROVED)
    case Rejected => !Withheld(p) && DecisionOf(p) == Some(Strategy.REJECTED)
    case Paused => true
  }

  predicate VoteOk(p: Proposal) {
    TalliesOk(p) && StatusOk(p)
  }

  lemma {:induction false} ElectorsBounded(electorate: seq<Elector>)
    ensures |ElectorIds(electorate)| <= |electorate|
  {
    if electorate != [] {
      ElectorsBounded(electorate[1..]);
      assert electorate == [electorate[0]] + electorate[1..];
      assert ElectorIds(electorate) == ElectorIds(electorate[1..]) + {electorate[0].id};
    } else {
      assert ElectorIds(electorate) == {};
    }
  }

  lemma Subset<T>(a: set<T>, b: set<T>)
    requires a <= b
    ensures |a| <= |b|
  {
    assert b == a + (b - a);
  }

  /** The tallies never exceed the electorate. */
  lemma TalliesBounded(p: Proposal)
    requires TalliesOk(p)
    ensures p.approveNum + p.againstNum == |p.ballots| <= p.availableNum
  {
    var yes, no := Voters(p.ballots, true), Voters(p.ballots, false);
    assert yes !! no && yes + no == p.ballots.Keys;
    assert |yes + no| == |yes| + |no|;
    Subset(p.ballots.Keys, ElectorIds(p.electorate));
    ElectorsBounded(p.electorate);
  }

  lemma VoterAdded(ballots: map<Address, Ballot>, addr: Address, ballot: Ballot, approve: bool)
    requires addr !in ballots
    ensures |Voters(ballots[addr := ballot], approve)| ==
            |Voters(ballots, approve)| + if ballot.approve == approve then 1 else 0
  {
    var before, after := Voters(ballots, approve), Voters(ballots[addr := ballot], approve);
    assert addr !in before;
    if ballot.approve == approve {
      assert after == before + {addr};
    } else {
      assert after == before;
    }
  }

  lemma BallotAdded(ballots: map<Address, Ballot>, addr: Address, ballot: Ballot)
    requires addr !in ballots
    ensures SuperVoted(ballots[addr := ballot]) <==> SuperVoted(ballots) || ballot.weight == SUPER_WEIGHT
  {
    var after := ballots[addr := ballot];
    assert forall a | a in ballots :: a in after && after[a] == ballots[a];
    assert addr in after;
  }

  lemma BallotCounted(p: Proposal, e: Elector, approve: bool)
    requires TalliesOk(p) && e in p.electorate && e.id !in p.ballots
    ensures TalliesOk(WithBallot(p, e, approve))
  {
    assert e.id in ElectorIds(p.electorate);
    hide Voters, SuperVoted, ElectorIds;
    var ballot := Ballot(approve, e.weight);
    VoterAdded(p.ballots, e.id, ballot, true);
    VoterAdded(p.ballots, e.id, ballot, false);
    BallotAdded(p.ballots, e.id, ballot);
    assert WithBallot(p, e, approve).ballots.Keys == p.ballots.Keys + {e.id};
  }

  lemma DecisionCases(p: Proposal)
    ensures DecisionOf(p).Some? ==> DecisionOf(p).value in {Strategy.APPROVED, Strategy.REJECTED, Strategy.WAITING}
  {
  }

  /** Every accepted vote keeps the tallies and the status true to the ballots. */
  lemma VoteKeeps(p: Proposal, addr: Address, choice: Choice)
    requires VoteOk(p) && Vote(p, addr, choice).Voted?
    ensures VoteOk(Vote(p, addr, choice).p)
  {
    hide Strategy.MakeStrategyDecision, Strategy.Threshold, TalliesOk;
    var e := FindElector(p.electorate, addr).value;
    var q := WithBallot(p, e, choice == For);
    BallotCounted(p, e, choice == For);
    var r := Vote(p, addr, choice).p;
    assert r == q.(thresholdNum := r.thresholdNum, status := r.status);
    SameTallies(q, r);
    DecisionCases(q);
  }

  /** Exactly which votes are accepted, whatever the strategy, and what an accepted one
      stores: the voter's choice with the weight of an elector of that address, counted on its
      side. */
  lemma VotedBallot(p: Proposal, addr: Address, choice: Choice)
    ensures var yes := p.approveNum + if choice == For then 1 else 0;
            var no := p.againstNum + if choice == Against then 1 else 0;
            && (SetVote(p, addr, choice).Voted? <==>
                && p.status == Proposed && addr in ElectorIds(p.electorate) && addr !in p.ballots
                && choice in {For, Against}
                && Strategy.Threshold(p.strategy, yes, no, p.initialNum, p.availableNum).Some?)
            && (SetVote(p, addr, choice).Voted? ==>
                var q := SetVote(p, addr, choice).p;
                && q.status == Proposed && q.approveNum == yes && q.againstNum == no
                && addr in q.ballots && q.ballots == p.ballots[addr := q.ballots[addr]]
                && q.ballots[addr].approve == (choice == For)
                && Elector(addr, q.ballots[addr].weight) in p.electorate)
  {
    hide Strategy.Threshold;
    var found := FindElector(p.electorate, addr);
    assert addr in ElectorIds(p.electorate) <==> found.Some?;
  }

  /** The threshold stored with a vote is the least number of approvals that would pass now. */
  lemma ThresholdStored(p: Proposal, addr: Address, choice: Choice)
    requires Vote(p, addr, choice).Voted?
    ensures var q := Vote(p, addr, choice).p;
            Strategy.IsLeast(q.strategy, q.approveNum, q.againstNum, q.initialNum, q.availableNum, q.thresholdNum)
  {
    hide Strategy.Threshold, Strategy.MakeStrategyDecision, Strategy.IsLeast;
    var q := Vote(p, addr, choice).p;
    Strategy.ThresholdIff(q.strategy, q.approveNum, q.againstNum, q.initialNum, q.availableNum, q.thresholdNum);
  }

  lemma SameTallies(p: Proposal, q: Proposal)
    requires TalliesOk(p) && q == p.(thresholdNum := q.thresholdNum, status := q.status)
    ensures TalliesOk(q)
  {
    assert q.ballots == p.ballots;
  }

  // ---- runs of votes ------------------------------------------------------------------------------------

  datatype Attempt = Attempt(addr: Address, choice: Choice)

  /** A refused vote leaves the stored proposal as it was. */
  function Cast(p: Proposal, v: Attempt): Proposal {
    match Vote(p, v.addr, v.choice)
    case Voted(q) => q
    case Refused(_) => p
  }

  function CastAll(p: Proposal, votes: seq<Attempt>): Proposal
    decreases |votes|
  {
    if votes == [] then p else CastAll(Cast(p, votes[0]), votes[1..])
  }

  predicate Fresh(p: Proposal) {
    && p.status == Proposed && p.ballots == map[] && p.approveNum == 0 && p.againstNum == 0
    && !p.superVoted && p.initialNum == p.availableNum == |p.electorate| < UINT64
  }

  lemma {:induction false} CastAllKeeps(p: Proposal, votes: seq<Attempt>)
    requires VoteOk(p)
    ensures VoteOk(CastAll(p, votes)) && CastAll(p, votes).strategy == p.strategy
    decreases |votes|
  {
    hide VoteOk, Vote;
    if votes != [] {
      var v := votes[0];
      if Vote(p, v.addr, v.choice).Voted? {
        VoteKeeps(p, v.addr, v.choice);
        VoteFrame(p, v.addr, v.choice);
      }
      CastAllKeeps(Cast(p, v), votes[1..]);
    }
  }

  lemma VoteFrame(p: Proposal, addr: Address, choice: Choice)
    requires Vote(p, addr, choice).Voted?
    ensures var q := Vote(p, addr, choice).p;
            q == p.(status := q.status, ballots := q.ballots, superVoted := q.superVoted,
                    approveNum := q.approveNum, againstNum := q.againstNum, thresholdNum := q.thresholdNum)
  {
    hide Strategy.MakeStrategyDecision, Strategy.Threshold;
  }

  /** From a new proposal, any sequence of vote attempts keeps the tallies equal to the
      ballots and within the electorate. */
  lemma VotingRun(p: Proposal, votes: seq<Attempt>)
    requires Fresh(p)
    ensures var q := CastAll(p, votes); VoteOk(q) && q.approveNum + q.againstNum == |q.ballots| <= q.availableNum
    ensures var q := CastAll(p, votes);
            q.special && q.status in {Approved, Rejected} ==>
            exists a :: a in q.ballots && q.ballots[a].weight == SUPER_WEIGHT
  {
    assert Voters(p.ballots, true) == {} && Voters(p.ballots, false) == {};
    CastAllKeeps(p, votes);
    TalliesBounded(CastAll(p, votes));
  }

  /** The vote is over once all electors voted, and a super admin among them if required. */
  lemma AllVotedClosed(p: Proposal)
    requires VoteOk(p) && p.ballots != map[] && |p.ballots| == p.availableNum
    requires p.special ==> SuperVoted(p.ballots)
    ensures p.status != Proposed
  {
    hide Strategy.MakeStrategyDecision;
    TalliesBounded(p);
    if DecisionOf(p).Some? {
      Strategy.ClosedWhenAllVoted(p.strategy, p.approveNum, p.againstNum, p.initialNum, p.availableNum);
    }
  }

  /** With a monotone strategy the status never runs ahead of the ballot: approved or
      rejected means that every completion agrees, open means that both ways are left. */
  lemma OutcomeFinal(p: Proposal)
    requires VoteOk(p) && p.ballots != map[] && p.status != Paused && (p.special ==> SuperVoted(p.ballots))
    requires Strategy.Evaluates(p.strategy) && Strategy.IgnoresRejects(p.strategy)
    requires Strategy.MonotoneUpTo(p.strategy, p.initialNum, p.availableNum)
    ensures p.status == Approved <==>
            Strategy.AllPass(p.strategy, p.approveNum, p.againstNum, p.initialNum, p.availableNum)
    ensures p.status == Rejected <==>
            Strategy.AllFail(p.strategy, p.approveNum, p.againstNum, p.initialNum, p.availableNum)
  {
    hide Strategy.MakeStrategyDecision;
    TalliesBounded(p);
    Strategy.DecisionExact(p.strategy, p.approveNum, p.againstNum, p.initialNum, p.availableNum);
    var n, r := p.availableNum, p.againstNum;
    assert Strategy.Reachable(p.approveNum, r, n, p.approveNum);
  }

  /** With a monotone strategy that some number of approvals satisfies, a vote is accepted
      exactly when the proposal is open and a voter of the electorate votes for the first time. */
  lemma VoteAcceptedIff(p: Proposal, addr: Address, choice: Choice, a: nat)
    requires VoteOk(p)
    requires Strategy.Evaluates(p.strategy) && Strategy.IgnoresRejects(p.strategy)
    requires Strategy.MonotoneUpTo(p.strategy, p.initialNum, p.initialNum)
    requires a <= p.initialNum && Strategy.Holds(p.strategy, a, 0, p.initialNum)
    ensures Vote(p, addr, choice).Voted? <==>
            p.status == Proposed && addr in ElectorIds(p.electorate) && addr !in p.ballots && choice != Illegible
  {
    hide Strategy.Threshold, Strategy.MakeStrategyDecision, TalliesOk, StatusOk, Strategy.MonotoneUpTo;
    var found := FindElector(p.electorate, addr);
    assert addr in ElectorIds(p.electorate) <==> found.Some?;
    if found.Some? && addr !in p.ballots {
      var q := WithBallot(p, found.value, choice == For);
      BallotCounted(p, found.value, choice == For);
      EnoughElectors(q, a);
    }
  }

  lemma EnoughElectors(p: Proposal, a: nat)
    requires TalliesOk(p)
    requires Strategy.Evaluates(p.strategy) && Strategy.IgnoresRejects(p.strategy)
    requires Strategy.MonotoneUpTo(p.strategy, p.initialNum, p.initialNum)
    requires a <= p.initialNum && Strategy.Holds(p.strategy, a, 0, p.initialNum)
    ensures ThresholdOf(p).Some? && DecisionOf(p).Some?
  {
    TalliesBounded(p);
    Strategy.AlwaysThreshold(p.strategy, p.approveNum, p.againstNum, p.initialNum, p.availableNum, a);
  }
}
