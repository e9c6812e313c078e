/** Grouped proof checking of a block (`verifyProofs` in executor.go): the groups are
    checked by independent workers, each of which merges its failures into the shared
    map under a lock, in whatever order the workers finish. */
module ProofGroups {
  import opened GoBytes

  const MAX_GROUP: nat := 5

  /** How many groups the configured proof type asks for. */
  function ConfigGroup(proofType: string): nat {
    if proofType == "parallel" then MAX_GROUP else if proofType == "serial" then 1 else 0
  }

  /** The reasons of the transactions in [lo, hi) that fail the check. */
  function Failures<Tx>(txs: seq<Tx>, check: Tx -> Option<string>, lo: nat, hi: nat): map<nat, string>
    requires lo <= hi <= |txs|
  {
    map j: nat | lo <= j < hi && check(txs[j]).Some? :: check(txs[j]).value
  }

  function GroupNum(n: nat, configGroup: nat): nat {
    if n < configGroup then n else configGroup
  }

  function GroupStart(n: nat, groups: nat, i: nat): nat
    requires 0 < groups
  {
    i * (n / groups)
  }

  /** The last group takes the remainder. */
  function GroupEnd(n: nat, groups: nat, i: nat): nat
    requires 0 < groups
  {
    if i + 1 == groups then n else (i + 1) * (n / groups)
  }

  lemma GroupBounds(n: nat, groups: nat, i: nat)
    requires 0 < groups && i < groups
    ensures GroupStart(n, groups, i) <= GroupEnd(n, groups, i) <= n
  {
    var len := n / groups;
    assert (i + 1) * len == i * len + len;
    MulMonotone(i + 1, groups, len);
    assert groups * len <= n;
  }

  /** No more groups than configured, and none of them idle: each but the last checks the same
      number of transactions, and the last at least that many. */
  lemma GroupsWork(n: nat, configGroup: nat, i: nat)
    requires n > 0 && configGroup > 0 && i < GroupNum(n, configGroup)
    ensures var groups := GroupNum(n, configGroup);
            && 1 <= groups <= configGroup && (groups == configGroup || groups == n)
            && var size := GroupEnd(n, groups, i) - GroupStart(n, groups, i);
               && 1 <= n / groups <= size && (i + 1 < groups ==> size == n / groups)
               && size <= n / groups + n % groups
  {
    var groups := GroupNum(n, configGroup);
    var len := n / groups;
    assert (i + 1) * len == i * len + len;
    assert n == groups * len + n % groups;
    assert len >= 1;
  }

  lemma MulMonotone(a: nat, b: nat, c: nat)
    requires a <= b
    ensures a * c <= b * c
  {
    assert b * c == a * c + (b - a) * c;
  }

  /** Every index falls into exactly one group. */
  lemma GroupsPartition(n: nat, groups: nat, j: nat)
    requires 0 < groups && j < n
    ensures exists i | 0 <= i < groups :: GroupStart(n, groups, i) <= j < GroupEnd(n, groups, i)
    ensures forall i, k | 0 <= i < groups && 0 <= k < groups
              && GroupStart(n, groups, i) <= j < GroupEnd(n, groups, i)
              && GroupStart(n, groups, k) <= j < GroupEnd(n, groups, k) :: i == k
  {
    var i := FindGroup(n, groups, j);
    forall i, k | 0 <= i < k < groups
      ensures GroupEnd(n, groups, i) <= GroupStart(n, groups, k)
    {
      MulMonotone(i + 1, k, n / groups);
    }
  }

  lemma FindGroup(n: nat, groups: nat, j: nat) returns (i: nat)
    requires 0 < groups && j < n
    ensures i < groups && GroupStart(n, groups, i) <= j < GroupEnd(n, groups, i)
  {
    i := 0;
    while i + 1 < groups && GroupEnd(n, groups, i) <= j
      invariant i < groups && GroupStart(n, groups, i) <= j
    {
      i := i + 1;
    }
  }

  function Below(n: nat): (s: set<nat>)
    ensures forall i: nat :: i in s <==> i < n
  {
    if n == 0 then {} else Below(n - 1) + {n - 1}
  }

  /** The shared map once the groups in `order` have merged, one after the other. */
  function Merged<Tx>(
      txs: seq<Tx>, check: Tx -> Option<string>, groups: nat, order: seq<nat>, m: map<nat, string>): map<nat, string>
    requires 0 < groups && forall k | 0 <= k < |order| :: order[k] < groups
    decreases |order|
  {
    if order == [] then m
    else
      var i := order[|order| - 1];
      GroupBounds(|txs|, groups, i);
      Merged(txs, check, groups, order[..|order| - 1], m)
      + Failures(txs, check, GroupStart(|txs|, groups, i), GroupEnd(|txs|, groups, i))
  }

  lemma {:induction false} MergedAt<Tx>(
      txs: seq<Tx>, check: Tx -> Option<string>, groups: nat, order: seq<nat>, m: map<nat, string>, j: nat)
    requires 0 < groups && forall k | 0 <= k < |order| :: order[k] < groups
    ensures var r := Merged(txs, check, groups, order, m);
            if (exists k | 0 <= k < |order| ::
                  GroupStart(|txs|, groups, order[k]) <= j < GroupEnd(|txs|, groups, order[k]))
               && j < |txs| && check(txs[j]).Some?
            then j in r && r[j] == check(txs[j]).value
            else (j in r <==> j in m) && (j in r ==> r[j] == m[j])
    decreases |order|
  {
    if order != [] {
      var front, i := order[..|order| - 1], order[|order| - 1];
      MergedAt(txs, check, groups, front, m, j);
      GroupBounds(|txs|, groups, i);
      forall k | 0 <= k < |order|
        ensures order[k] == i || (k < |front| && front[k] == order[k])
      {
      }
      assert forall k | 0 <= k < |front| :: front[k] == order[k];
    }
  }

  /** Whatever the order in which the groups merge, the result is that of one serial pass. */
  lemma AnyOrderIsSerial<Tx>(
      txs: seq<Tx>, check: Tx -> Option<string>, groups: nat, order: seq<nat>, m: map<nat, string>)
    requires 0 < groups && forall k | 0 <= k < |order| :: order[k] < groups
    requires forall i | 0 <= i < groups :: i in order
    ensures Merged(txs, check, groups, order, m) == m + Failures(txs, check, 0, |txs|)
  {
    var r, s := Merged(txs, check, groups, order, m), m + Failures(txs, check, 0, |txs|);
    forall j: nat
      ensures (j in r <==> j in s) && (j in r ==> r[j] == s[j])
    {
      MergedAt(txs, check, groups, order, m, j);
      if j < |txs| {
        var i := FindGroup(|txs|, groups, j);
        assert i in order;
        var k :| 0 <= k < |order| && order[k] == i;
      }
    }
  }

  /** One worker: the invalid indices of its group and their reasons. */
  method CheckGroup<Tx>(txs: seq<Tx>, check: Tx -> Option<string>, lo: nat, hi: nat)
    returns (invalid: seq<nat>, reasons: map<nat, string>)
    requires lo <= hi <= |txs|
    ensures reasons == Failures(txs, check, lo, hi)
    ensures forall j: nat :: j in invalid <==> j in reasons
  {
    invalid, reasons := [], map[];
    var j := lo;
    while j < hi
      invariant lo <= j <= hi
      invariant reasons == Failures(txs, check, lo, j)
      invariant forall i: nat :: i in invalid <==> i in reasons
    {
      var res := check(txs[j]);
      if res.Some? {
        invalid := invalid + [j];
        reasons := reasons[j := res.value];
      }
      j := j + 1;
    }
  }

  /** The locked section of one worker. */
  method MergeGroup(m: map<nat, string>, invalid: seq<nat>, reasons: map<nat, string>) returns (r: map<nat, string>)
    requires forall j: nat :: j in invalid <==> j in reasons
    ensures r == m + reasons
  {
    r := m;
    var k := 0;
    while k < |invalid|
      invariant 0 <= k <= |invalid|
      invariant forall j: nat :: j in r <==> j in m || j in invalid[..k]
      invariant forall j: nat | j in r :: r[j] == if j in invalid[..k] then reasons[j] else m[j]
    {
      r := r[invalid[k] := reasons[invalid[k]]];
      k := k + 1;
    }
    assert invalid[..k] == invalid;
  }

  /** `r` is `m` with exactly the failing transactions added, each with its reason. */
  ghost predicate Reports<Tx>(txs: seq<Tx>, check: Tx -> Option<string>, m: map<nat, string>, r: map<nat, string>) {
    forall j: nat ::
      Lookup(r, j) == if j < |txs| && check(txs[j]).Some? then check(txs[j]) else Lookup(m, j)
  }

  lemma SerialReports<Tx>(txs: seq<Tx>, check: Tx -> Option<string>, m: map<nat, string>)
    ensures Reports(txs, check, m, m + Failures(txs, check, 0, |txs|))
  {
  }

  lemma NoneFails<Tx>(txs: seq<Tx>, check: Tx -> Option<string>, m: map<nat, string>)
    requires txs == []
    ensures m + Failures(txs, check, 0, |txs|) == m
  {
  }

  lemma NoneMerged<Tx>(txs: seq<Tx>, check: Tx -> Option<string>, groups: nat, m: map<nat, string>)
    requires 0 < groups
    ensures Merged(txs, check, groups, [], m) == m
  {
  }

  lemma MergedNext<Tx>(
      txs: seq<Tx>, check: Tx -> Option<string>, groups: nat, order: seq<nat>, i: nat, m: map<nat, string>)
    requires 0 < groups && i < groups && forall k | 0 <= k < |order| :: order[k] < groups
    requires GroupStart(|txs|, groups, i) <= GroupEnd(|txs|, groups, i) <= |txs|
    ensures Merged(txs, check, groups, order + [i], m) ==
            Merged(txs, check, groups, order, m)
            + Failures(txs, check, GroupStart(|txs|, groups, i), GroupEnd(|txs|, groups, i))
  {
    assert (order + [i])[..|order|] == order;
  }

  /** `verifyProofs` past its early returns: the workers merge in an arbitrary order.
      With an unknown proof type and a non-empty block the code divides by zero. */
  method VerifyProofs<Tx>(txs: seq<Tx>, check: Tx -> Option<string>, proofType: string, m: map<nat, string>)
    returns (r: map<nat, string>)
    requires txs != [] ==> ConfigGroup(proofType) > 0
    ensures Reports(txs, check, m, r)
  {
    hide Failures, Merged, Reports;
    r := m;
    SerialReports(txs, check, m);
    if |txs| == 0 {
      NoneFails(txs, check, m);
      return;
    }
    var groups := GroupNum(|txs|, ConfigGroup(proofType));
    ghost var order: seq<nat> := [];
    NoneMerged(txs, check, groups, m);
    var waiting := Below(groups);
    while waiting != {}
      invariant forall k | 0 <= k < |order| :: order[k] < groups
      invariant forall i: nat | i < groups :: i in waiting || i in order
      invariant forall i | i in waiting :: i < groups
      invariant r == Merged(txs, check, groups, order, m)
      decreases |waiting|
    {
      var i :| i in waiting;
      GroupBounds(|txs|, groups, i);
      var invalid, reasons := CheckGroup(txs, check, GroupStart(|txs|, groups, i), GroupEnd(|txs|, groups, i));
      r := MergeGroup(r, invalid, reasons);
      MergedNext(txs, check, groups, order, i, m);
      order := order + [i];
      waiting := waiting - {i};
    }
    AnyOrderIsSerial(txs, check, groups, order, m);
  }
}
