/** The voting strategies of repo.go and the threshold search of governance.go. */
module Strategy {
  import opened GoBytes

  /** A strategy expression over the approvals a, the rejections r and the electorate t;
      `None` where the expression does not evaluate to a truth value. */
  type Expr = (nat, nat, nat) -> Option<bool>

  datatype Decision = Decision(ended: bool, pass: bool)

  const APPROVED := Decision(true, true)
  const REJECTED := Decision(true, false)
  const WAITING := Decision(false, false)

  /** Subtraction of 64-bit unsigned integers. */
  function Sub64(x: nat, y: nat): nat {
    (x - y) % UINT64
  }

  function MakeStrategyDecision(e: Expr, approve: nat, reject: nat, total: nat, available: nat): Option<Decision> {
    match e(approve, reject, total)
    case None => None
    case Some(true) => Some(APPROVED)
    case Some(false) =>
      match e(Sub64(available, reject), reject, total)
      case None => None
      case Some(b) => Some(if b then WAITING else REJECTED)
  }

  /** The default strategy: more than half of the electorate approves. */
  function SimpleMajority(a: nat, r: nat, t: nat): Option<bool> {
    Some(a as real > 0.5 * t as real)
  }

  ghost predicate Evaluates(e: Expr) {
    forall a, r, t :: e(a, r, t).Some?
  }

  ghost predicate IgnoresRejects(e: Expr) {
    forall a, r, t :: e(a, r, t) == e(a, 0, t)
  }

  predicate Holds(e: Expr, a: nat, r: nat, t: nat) {
    e(a, r, t) == Some(true)
  }

  predicate MonotoneUpTo(e: Expr, t: nat, n: nat) {
    forall a: nat, b: nat | a <= b <= n && Holds(e, a, 0, t) :: Holds(e, b, 0, t)
  }

  /** The final approvals that the votes still to come can lead to, out of n electors
      of whom a approved and r rejected so far. */
  predicate Reachable(a: nat, r: nat, n: nat, final: nat) {
    a <= final && final + r <= n
  }

  /** The vote passes when it ends with `final` approvals and all others against. */
  predicate PassesWith(e: Expr, final: nat, t: nat, n: nat) {
    final <= n && Holds(e, final, n - final, t)
  }

  predicate AllPass(e: Expr, a: nat, r: nat, t: nat, n: nat) {
    forall f: nat | f <= n && Reachable(a, r, n, f) :: PassesWith(e, f, t, n)
  }

  predicate AllFail(e: Expr, a: nat, r: nat, t: nat, n: nat) {
    forall f: nat | f <= n && Reachable(a, r, n, f) :: !PassesWith(e, f, t, n)
  }

  /** Once everyone has voted, more approvals never turn a pass into a failure. */
  predicate FinalMonotone(e: Expr, t: nat, n: nat) {
    forall f: nat, g: nat | f <= g <= n && PassesWith(e, f, t, n) :: PassesWith(e, g, t, n)
  }

  /** What holds now still holds if everyone else rejects. */
  ghost predicate Lasting(e: Expr, t: nat, n: nat) {
    forall a: nat, r: nat | a <= n && r <= n - a && Holds(e, a, r, t) :: PassesWith(e, a, t, n)
  }

  /** What would hold if everyone else rejected holds now. */
  ghost predicate Prompt(e: Expr, t: nat, n: nat) {
    forall a: nat, r: nat | a <= n && r <= n - a && PassesWith(e, a, t, n) :: Holds(e, a, r, t)
  }

  /** Every decision that closes the vote agrees with every completion of the ballot. */
  ghost predicate EarlyCloseSound(e: Expr, t: nat, n: nat) {
    forall a: nat, r: nat | a + r <= n ::
      && (MakeStrategyDecision(e, a, r, t, n) == Some(APPROVED) ==> AllPass(e, a, r, t, n))
      && (MakeStrategyDecision(e, a, r, t, n) == Some(REJECTED) ==> AllFail(e, a, r, t, n))
  }

  /** The decision approves when every completion passes, rejects when every completion
      fails, and otherwise waits. */
  predicate Exact(e: Expr, a: nat, r: nat, t: nat, n: nat) {
    MakeStrategyDecision(e, a, r, t, n) ==
    Some(if AllPass(e, a, r, t, n) then APPROVED else if AllFail(e, a, r, t, n) then REJECTED else WAITING)
  }

  ghost predicate AlwaysExact(e: Expr, t: nat, n: nat) {
    forall a: nat, r: nat | a + r <= n :: Exact(e, a, r, t, n)
  }

  /** The two votes that bound the completions. */
  lemma Bounds(e: Expr, a: nat, r: nat, t: nat, n: nat)
    requires a + r <= n < UINT64
    ensures Sub64(n, r) == n - r && (PassesWith(e, n - r, t, n) <==> Holds(e, n - r, r, t))
    ensures AllPass(e, a, r, t, n) ==> PassesWith(e, a, t, n) && PassesWith(e, n - r, t, n)
    ensures AllFail(e, a, r, t, n) ==> !PassesWith(e, a, t, n) && !PassesWith(e, n - r, t, n)
    ensures FinalMonotone(e, t, n) && PassesWith(e, a, t, n) ==> AllPass(e, a, r, t, n)
    ensures FinalMonotone(e, t, n) && !PassesWith(e, n - r, t, n) ==> AllFail(e, a, r, t, n)
  {
    assert Reachable(a, r, n, a) && Reachable(a, r, n, n - r);
  }

  /** Closing early is sound exactly when more approvals never hurt at the end and what
      holds early lasts. */
  lemma EarlyCloseSoundIff(e: Expr, t: nat, n: nat)
    requires Evaluates(e) && n < UINT64
    ensures EarlyCloseSound(e, t, n) <==> FinalMonotone(e, t, n) && Lasting(e, t, n)
  {
    hide FinalMonotone, PassesWith, AllPass, AllFail;
    if EarlyCloseSound(e, t, n) {
      SoundLasts(e, t, n);
      SoundMonotone(e, t, n);
    }
    if FinalMonotone(e, t, n) && Lasting(e, t, n) {
      forall a: nat, r: nat | a + r <= n
        ensures MakeStrategyDecision(e, a, r, t, n) == Some(APPROVED) ==> AllPass(e, a, r, t, n)
        ensures MakeStrategyDecision(e, a, r, t, n) == Some(REJECTED) ==> AllFail(e, a, r, t, n)
      {
        Bounds(e, a, r, t, n);
        assert Holds(e, a, r, t) ==> PassesWith(e, a, t, n);
      }
    }
  }

  lemma SoundLasts(e: Expr, t: nat, n: nat)
    requires Evaluates(e) && n < UINT64 && EarlyCloseSound(e, t, n)
    ensures Lasting(e, t, n)
  {
    forall a: nat, r: nat | a <= n && r <= n - a && Holds(e, a, r, t)
      ensures PassesWith(e, a, t, n)
    {
      assert MakeStrategyDecision(e, a, r, t, n) == Some(APPROVED);
      Bounds(e, a, r, t, n);
    }
  }

  lemma SoundMonotone(e: Expr, t: nat, n: nat)
    requires Evaluates(e) && n < UINT64 && EarlyCloseSound(e, t, n)
    ensures FinalMonotone(e, t, n)
  {
    forall f: nat, g: nat | f <= g <= n && PassesWith(e, f, t, n)
      ensures PassesWith(e, g, t, n)
    {
      var r := n - g;
      var decision := MakeStrategyDecision(e, f, r, t, n);
      Bounds(e, f, r, t, n);
      assert n - r == g && decision != Some(REJECTED);
      assert decision == Some(APPROVED) ==> AllPass(e, f, r, t, n);
    }
  }

  /** The decision is exact exactly when, moreover, it does not wait for what is settled. */
  lemma DecisionExactIff(e: Expr, t: nat, n: nat)
    requires Evaluates(e) && n < UINT64
    ensures AlwaysExact(e, t, n) <==> FinalMonotone(e, t, n) && Lasting(e, t, n) && Prompt(e, t, n)
  {
    hide FinalMonotone, PassesWith, AllPass, AllFail;
    if FinalMonotone(e, t, n) && Lasting(e, t, n) && Prompt(e, t, n) {
      forall a: nat, r: nat | a + r <= n
        ensures Exact(e, a, r, t, n)
      {
        Bounds(e, a, r, t, n);
        assert Holds(e, a, r, t) <==> PassesWith(e, a, t, n);
      }
    }
    if AlwaysExact(e, t, n) {
      ExactSound(e, t, n);
      SoundMonotone(e, t, n);
      SoundLasts(e, t, n);
      forall a: nat, r: nat | a <= n && r <= n - a && PassesWith(e, a, t, n)
        ensures Holds(e, a, r, t)
      {
        assert Exact(e, a, r, t, n);
        Bounds(e, a, r, t, n);
      }
    }
  }

  lemma ExactSound(e: Expr, t: nat, n: nat)
    requires Evaluates(e) && n < UINT64 && AlwaysExact(e, t, n)
    ensures EarlyCloseSound(e, t, n)
  {
    hide AllPass, AllFail;
    forall a: nat, r: nat | a + r <= n
      ensures MakeStrategyDecision(e, a, r, t, n) == Some(APPROVED) ==> AllPass(e, a, r, t, n)
      ensures MakeStrategyDecision(e, a, r, t, n) == Some(REJECTED) ==> AllFail(e, a, r, t, n)
    {
      assert Exact(e, a, r, t, n);
    }
  }

  /** A strategy that looks at approvals only meets all of this exactly if it is monotone. */
  lemma ApprovalsOnly(e: Expr, t: nat, n: nat)
    requires IgnoresRejects(e)
    ensures Lasting(e, t, n) && Prompt(e, t, n) && (FinalMonotone(e, t, n) <==> MonotoneUpTo(e, t, n))
  {
    assert forall a: nat, r: nat :: Holds(e, a, r, t) == Holds(e, a, 0, t);
    if FinalMonotone(e, t, n) {
      forall a: nat, b: nat | a <= b <= n && Holds(e, a, 0, t)
        ensures Holds(e, b, 0, t)
      {
        assert PassesWith(e, a, t, n) && PassesWith(e, b, t, n);
      }
    }
  }

  /** For a monotone strategy that looks at approvals only, every decision is exact. */
  lemma DecisionExact(e: Expr, a: nat, r: nat, t: nat, n: nat)
    requires Evaluates(e) && IgnoresRejects(e) && MonotoneUpTo(e, t, n)
    requires a + r <= n < UINT64
    ensures Exact(e, a, r, t, n)
  {
    hide MonotoneUpTo, FinalMonotone, Lasting, Prompt, IgnoresRejects, Exact;
    ApprovalsOnly(e, t, n);
    DecisionExactIff(e, t, n);
  }

  lemma SimpleMajorityMonotone(t: nat, n: nat)
    ensures Evaluates(SimpleMajority) && IgnoresRejects(SimpleMajority) && MonotoneUpTo(SimpleMajority, t, n)
  {
  }

  /** Under the default majority a vote passes with more than half of the electorate, and the
      threshold says so from the start. */
  lemma MajorityThreshold(a: nat, r: nat, t: nat)
    ensures Holds(SimpleMajority, a, r, t) <==> 2 * a > t
    ensures t > 0 ==> Threshold(SimpleMajority, 0, 0, t, t) == Some(t / 2 + 1)
    ensures t == 0 ==> Threshold(SimpleMajority, 0, 0, t, t) == None
  {
    forall k: nat
      ensures Holds(SimpleMajority, k, r, t) <==> 2 * k > t
      ensures Decides(SimpleMajority, k, 0, t, t)
      ensures Passes(SimpleMajority, k, 0, t, t) <==> 2 * k > t
    {
    }
    if t > 0 {
      ThresholdIff(SimpleMajority, 0, 0, t, t, t / 2 + 1);
    }
  }

  function MoreForThanAgainst(a: nat, r: nat, t: nat): Option<bool> {
    Some(a > r)
  }

  /** A strategy that weighs rejections can close on the first vote, against what the
      remaining votes would decide: more approvals never hurt it, but its pass does not last. */
  lemma RejectsMatter(t: nat, n: nat)
    requires 2 <= n < UINT64
    ensures MakeStrategyDecision(MoreForThanAgainst, 1, 0, t, n) == Some(APPROVED)
    ensures Reachable(1, 0, n, 1) && !PassesWith(MoreForThanAgainst, 1, t, n)
    ensures FinalMonotone(MoreForThanAgainst, t, n) && !Lasting(MoreForThanAgainst, t, n)
    ensures !EarlyCloseSound(MoreForThanAgainst, t, n)
  {
    assert Holds(MoreForThanAgainst, 1, 0, t) && !PassesWith(MoreForThanAgainst, 1, t, n);
    EarlyCloseSoundIff(MoreForThanAgainst, t, n);
  }

  /** Once everyone has voted the vote is over, whatever the strategy. */
  lemma ClosedWhenAllVoted(e: Expr, a: nat, r: nat, t: nat, n: nat)
    requires a + r == n < UINT64 && MakeStrategyDecision(e, a, r, t, n).Some?
    ensures MakeStrategyDecision(e, a, r, t, n) == Some(if Holds(e, a, r, t) then APPROVED else REJECTED)
  {
    assert Sub64(n, r) == a;
  }

  // ---- thresholds ------------------------------------------------------------------------------

  predicate Passes(e: Expr, k: nat, r: nat, t: nat, n: nat) {
    MakeStrategyDecision(e, k, r, t, n) == Some(APPROVED)
  }

  predicate Decides(e: Expr, k: nat, r: nat, t: nat, n: nat) {
    MakeStrategyDecision(e, k, r, t, n).Some?
  }

  function Threshold(e: Expr, k: nat, r: nat, t: nat, n: nat): Option<nat>
    decreases t + 1 - k
  {
    if k > t || !Decides(e, k, r, t, n) then None
    else if Passes(e, k, r, t, n) then Some(k)
    else Threshold(e, k + 1, r, t, n)
  }

  predicate IsLeast(e: Expr, k: nat, r: nat, t: nat, n: nat, x: nat) {
    && k <= x <= t && Passes(e, x, r, t, n)
    && forall j: nat | k <= j < x :: Decides(e, j, r, t, n) && !Passes(e, j, r, t, n)
  }

  /** The threshold is the least number of approvals, from k to the whole electorate,
      that passes. */
  lemma {:induction false} ThresholdIff(e: Expr, k: nat, r: nat, t: nat, n: nat, x: nat)
    ensures Threshold(e, k, r, t, n) == Some(x) <==> IsLeast(e, k, r, t, n, x)
    decreases t + 1 - k
  {
    if k <= t && Decides(e, k, r, t, n) && !Passes(e, k, r, t, n) {
      ThresholdIff(e, k + 1, r, t, n, x);
    }
  }

  method GetCurThresholdApproveNum(e: Expr, approve: nat, reject: nat, total: nat, available: nat)
    returns (threshold: Option<nat>)
    ensures threshold == Threshold(e, approve, reject, total, available)
    ensures threshold.Some? ==> IsLeast(e, approve, reject, total, available, threshold.value)
  {
    var k := approve;
    while k <= total
      invariant approve <= k
      invariant Threshold(e, approve, reject, total, available) == Threshold(e, k, reject, total, available)
      decreases total + 1 - k
    {
      var decision := MakeStrategyDecision(e, k, reject, total, available);
      if decision.None? {
        return None;
      }
      if decision.value.pass {
        ThresholdIff(e, approve, reject, total, available, k);
        return Some(k);
      }
      k := k + 1;
    }
    return None;
  }

  predicate FirstHolds(e: Expr, a: nat, t: nat) {
    Holds(e, a, 0, t) && forall j: nat | j < a :: e(j, 0, t) == Some(false)
  }

  /** The check made before a strategy is stored: some number of approvals passes, and
      the expression evaluates up to there. */
  method CheckStrategyExpression(e: Expr, adminsNum: nat) returns (ok: bool)
    ensures ok <==> exists a: nat :: a <= adminsNum && FirstHolds(e, a, adminsNum)
  {
    var i := 0;
    while i <= adminsNum
      invariant i <= adminsNum + 1
      invariant forall a: nat | a < i :: e(a, 0, adminsNum) == Some(false)
    {
      var result := e(i, 0, adminsNum);
      if result.None? {
        return false;
      }
      if result.value {
        assert FirstHolds(e, i, adminsNum);
        return true;
      }
      i := i + 1;
    }
    return false;
  }

  /** A monotone strategy that was accepted for t electors leaves a threshold at every
      stage of a ballot of t electors, so no vote is refused for want of one. */
  lemma AlwaysThreshold(e: Expr, k: nat, r: nat, t: nat, n: nat, a: nat)
    requires Evaluates(e) && IgnoresRejects(e) && MonotoneUpTo(e, t, t)
    requires a <= t && Holds(e, a, 0, t) && k <= t
    ensures Threshold(e, k, r, t, n).Some?
  {
    assert Holds(e, t, 0, t);
    SomeThreshold(e, k, r, t, n, t);
  }

  /** For a strategy that always evaluates, the search fails just when nothing passes. */
  lemma {:induction false} SomeThreshold(e: Expr, k: nat, r: nat, t: nat, n: nat, x: nat)
    requires Evaluates(e)
    requires k <= x <= t && e(x, r, t) == Some(true)
    ensures Threshold(e, k, r, t, n).Some?
    decreases t + 1 - k
  {
    if !Passes(e, k, r, t, n) {
      SomeThreshold(e, k + 1, r, t, n, x);
    }
  }
}
