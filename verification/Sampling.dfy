/** `RandRangeNumbers` of sign.go: a partial Fisher-Yates shuffle of [min, max] in an
    array where 0 means "not assigned yet" and a value of 0 is kept as max + 1, and the
    choice of signers built on it. */
module Sampling {
  import opened GoBytes

  /** The number at position `j`, as if every position had been assigned. */
  function Assigned(min: int, x: int, j: int): int {
    if x == 0 then min + j else x
  }

  /** `position` is where the stand-in for 0 is, or -1 if 0 is not in the range. */
  ghost predicate Tracked(nums: seq<int>, min: int, max: int, position: int) {
    if min <= 0 <= max
    then 0 <= position < |nums| && forall j | 0 <= j < |nums| :: (nums[j] == max + 1 <==> j == position)
    else position == -1
  }

  /** The assigned numbers are in range, up to the stand-in, and pairwise distinct. */
  ghost predicate Shuffled(nums: seq<int>, min: int, max: int) {
    && |nums| == max - min + 1
    && (forall j | 0 <= j < |nums| ::
          var v := Assigned(min, nums[j], j); min <= v <= max + 1 && v != 0 && (v == max + 1 ==> min <= 0 <= max))
    && (forall i, j | 0 <= i < j < |nums| :: Assigned(min, nums[i], i) != Assigned(min, nums[j], j))
  }

  /** An unassigned entry gets the number it stands for. */
  function Assign(nums: seq<int>, min: int, i: nat): seq<int>
    requires i < |nums|
  {
    if nums[i] == 0 then nums[i := min + i] else nums
  }

  function Swap(nums: seq<int>, i: nat, j: nat): seq<int>
    requires i < |nums| && j < |nums|
  {
    nums[i := nums[j]][j := nums[i]]
  }

  function Moved(position: int, i: nat, j: nat): int {
    if position == -1 then position else if i == position then j else if j == position then i else position
  }

  lemma AssignKeeps(nums: seq<int>, min: int, max: int, position: int, i: nat)
    requires Shuffled(nums, min, max) && Tracked(nums, min, max, position) && i < |nums|
    ensures var m := Assign(nums, min, i);
            Shuffled(m, min, max) && Tracked(m, min, max, position) && m[i] != 0
    ensures forall j | 0 <= j < |nums| && nums[j] != 0 :: Assign(nums, min, i)[j] == nums[j]
  {
    var m := Assign(nums, min, i);
    assert forall j | 0 <= j < |nums| :: Assigned(min, m[j], j) == Assigned(min, nums[j], j);
  }

  lemma SwapKeeps(nums: seq<int>, min: int, max: int, position: int, i: nat, j: nat)
    requires Shuffled(nums, min, max) && Tracked(nums, min, max, position) && i < |nums| && j < |nums|
    requires nums[i] != 0 && nums[j] != 0
    ensures var m := Swap(nums, i, j);
            Shuffled(m, min, max) && Tracked(m, min, max, Moved(position, i, j)) && m[i] != 0 && m[j] != 0
  {
    var m := Swap(nums, i, j);
    forall k | 0 <= k < |m|
      ensures Assigned(min, m[k], k) == Assigned(min, nums[Other(k, i, j)], Other(k, i, j))
    {
    }
  }

  /** Where a swap takes the entry of position `k`. */
  function Other(k: int, i: nat, j: nat): int {
    if k == i then j else if k == j then i else k
  }

  /** Before the first step. */
  lemma Unassigned(nums: seq<int>, min: int, max: int, position: int)
    requires min <= max && |nums| == max - min + 1
    requires position == if min <= 0 <= max then -min else -1
    requires forall j | 0 <= j < |nums| :: nums[j] == if j == position then max + 1 else 0
    ensures Shuffled(nums, min, max) && Tracked(nums, min, max, position)
  {
  }

  /** The body of the loop: bring position `num` to position `i`. */
  method SwapIn(nums: array<int>, min: int, position: int, i: nat, num: nat) returns (moved: int)
    requires i < nums.Length && num < nums.Length
    modifies nums
    ensures nums[..] == Swap(Assign(Assign(old(nums[..]), min, i), min, num), i, num)
    ensures moved == Moved(position, i, num)
  {
    if nums[i] == 0 { nums[i] := min + i; }
    if nums[num] == 0 { nums[num] := min + num; }
    moved := position;
    if moved != -1 {
      if i == moved {
        moved := num;
      } else if num == moved {
        moved := i;
      }
    }
    nums[i], nums[num] := nums[num], nums[i];
  }

  lemma StepKeeps(nums: seq<int>, next: seq<int>, min: int, max: int, position: int, i: nat, num: nat)
    requires Shuffled(nums, min, max) && Tracked(nums, min, max, position) && i < |nums| && num < |nums|
    requires next == Swap(Assign(Assign(nums, min, i), min, num), i, num)
    requires forall j | 0 <= j < i :: nums[j] != 0
    ensures Shuffled(next, min, max) && Tracked(next, min, max, Moved(position, i, num))
    ensures |next| == |nums| && forall j | 0 <= j <= i :: next[j] != 0
  {
    hide Shuffled, Tracked;
    AssignKeeps(nums, min, max, position, i);
    var first := Assign(nums, min, i);
    AssignKeeps(first, min, max, position, num);
    SwapKeeps(Assign(first, min, num), min, max, position, i, num);
  }

  // ---- the shuffle without the trick -------------------------------------------------------------

  /** The numbers from `min` to `max` in order. */
  function Range(min: int, max: int): seq<int> {
    if max < min then [] else seq(max - min + 1, j => min + j)
  }

  /** The first `n` steps of the textbook shuffle: step `i` swaps in the number at `draw(i)`. */
  function Shuffle(nums: seq<int>, draw: nat -> nat, n: nat): (r: seq<int>)
    requires n <= |nums| && forall i: nat :: draw(i) < |nums| || nums == []
    ensures |r| == |nums|
  {
    if n == 0 then nums else Swap(Shuffle(nums, draw, n - 1), n - 1, draw(n - 1))
  }

  /** What an entry of the array stands for. */
  function Decoded(min: int, max: int, x: int, j: int): int {
    if x == 0 then min + j else if x == max + 1 then 0 else x
  }

  ghost predicate Mirrors(nums: seq<int>, min: int, max: int, plain: seq<int>) {
    |plain| == |nums| && forall j | 0 <= j < |nums| :: plain[j] == Decoded(min, max, nums[j], j)
  }

  lemma StepMirrors(nums: seq<int>, next: seq<int>, min: int, max: int, plain: seq<int>, i: nat, num: nat)
    requires Shuffled(nums, min, max) && Mirrors(nums, min, max, plain) && i < |nums| && num < |nums|
    requires next == Swap(Assign(Assign(nums, min, i), min, num), i, num)
    ensures Mirrors(next, min, max, Swap(plain, i, num))
  {
    var m := Assign(Assign(nums, min, i), min, num);
    assert forall j | 0 <= j < |nums| :: Assigned(min, nums[j], j) != 0;
    assert m[i] != 0 && m[num] != 0;
    assert Mirrors(m, min, max, plain);
  }

  lemma StartMirrors(nums: seq<int>, min: int, max: int, position: int)
    requires min <= max && |nums| == max - min + 1
    requires position == if min <= 0 <= max then -min else -1
    requires forall j | 0 <= j < |nums| :: nums[j] == if j == position then max + 1 else 0
    ensures Mirrors(nums, min, max, Range(min, max))
  {
  }

  lemma MirrorsPrefix(nums: seq<int>, min: int, max: int, position: int, plain: seq<int>, r: seq<int>)
    requires Tracked(nums, min, max, position) && Mirrors(nums, min, max, plain) && Shuffled(nums, min, max)
    requires |r| <= |nums| && forall j | 0 <= j < |r| :: nums[j] != 0 && r[j] == if j == position then 0 else nums[j]
    ensures r == plain[..|r|]
  {
    forall j | 0 <= j < |r|
      ensures r[j] == plain[j]
    {
      assert Assigned(min, nums[j], j) == nums[j];
    }
  }

  /** The array after `i` steps. */
  ghost predicate Running(nums: seq<int>, min: int, max: int, position: int, draw: nat -> nat, i: nat) {
    && min <= max && (forall k: nat :: draw(k) < max - min + 1) && i <= max - min + 1 == |nums|
    && Shuffled(nums, min, max) && Tracked(nums, min, max, position) && (forall j | 0 <= j < i :: nums[j] != 0)
    && Mirrors(nums, min, max, Shuffle(Range(min, max), draw, i))
  }

  lemma RunningStart(nums: seq<int>, min: int, max: int, position: int, draw: nat -> nat)
    requires min <= max && |nums| == max - min + 1 && forall k: nat :: draw(k) < max - min + 1
    requires position == if min <= 0 <= max then -min else -1
    requires forall j | 0 <= j < |nums| :: nums[j] == if j == position then max + 1 else 0
    ensures Running(nums, min, max, position, draw, 0)
  {
    Unassigned(nums, min, max, position);
    StartMirrors(nums, min, max, position);
  }

  lemma RunningStep(
      nums: seq<int>, next: seq<int>, min: int, max: int, position: int, draw: nat -> nat, i: nat)
    requires Running(nums, min, max, position, draw, i) && i < |nums|
    requires draw(i) < |nums| && next == Swap(Assign(Assign(nums, min, i), min, draw(i)), i, draw(i))
    ensures Running(next, min, max, Moved(position, i, draw(i)), draw, i + 1)
  {
    hide Mirrors, Shuffled, Tracked;
    StepKeeps(nums, next, min, max, position, i, draw(i));
    StepMirrors(nums, next, min, max, Shuffle(Range(min, max), draw, i), i, draw(i));
  }

  /** The array at the start and where the stand-in for 0 is. */
  method Blank(min: int, max: int) returns (nums: array<int>, position: int)
    requires min <= max
    ensures fresh(nums) && nums.Length == max - min + 1
    ensures position == if min <= 0 <= max then -min else -1
    ensures forall j | 0 <= j < nums.Length :: nums[j] == if j == position then max + 1 else 0
  {
    nums := new int[max - min + 1](_ => 0);
    position := -1;
    if min <= 0 && max >= 0 {
      position := -min;
      nums[position] := max + 1;
    }
  }

  /** The first `count` numbers once the stand-in is turned back. */
  lemma RunningEnd(
      nums: seq<int>, min: int, max: int, position: int, draw: nat -> nat, count: nat, r: seq<int>)
    requires Running(nums, min, max, position, draw, count) && |r| == count <= |nums|
    requires forall j | 0 <= j < |r| :: r[j] == if j == position then 0 else nums[j]
    ensures Distinct(r) && (forall j | 0 <= j < |r| :: min <= r[j] <= max)
    ensures r == Shuffle(Range(min, max), draw, count)[..count]
  {
    hide Mirrors, Shuffled, Tracked;
    SamplePrefix(nums, min, max, position, r);
    MirrorsPrefix(nums, min, max, position, Shuffle(Range(min, max), draw, count), r);
  }

  /** `draw` is the random generator: any function into the index range.  The numbers are those
      that the textbook shuffle draws.  A negative count has no answer: slicing to it panics. */
  method RandRangeNumbers(min: int, max: int, count: nat, draw: nat -> nat) returns (r: seq<int>)
    requires max >= min ==> forall i: nat :: draw(i) < max - min + 1
    ensures max < min || max - min + 1 < count ==> r == []
    ensures max >= min && max - min + 1 >= count ==>
            && |r| == count && Distinct(r) && (forall j | 0 <= j < |r| :: min <= r[j] <= max)
            && r == Shuffle(Range(min, max), draw, count)[..count]
  {
    hide Running, Swap, Assign, Moved, Shuffle, Range, Distinct;
    if max < min || max - min + 1 < count {
      return [];
    }
    var nums, position := Blank(min, max);
    RunningStart(nums[..], min, max, position, draw);
    var i := 0;
    while i < count
      invariant 0 <= i <= count <= nums.Length == max - min + 1
      invariant Running(nums[..], min, max, position, draw, i)
    {
      ghost var before, wasAt := nums[..], position;
      var num := draw(i);
      position := SwapIn(nums, min, position, i, num);
      RunningStep(before, nums[..], min, max, wasAt, draw, i);
      i := i + 1;
    }
    ghost var shuffled := nums[..];
    RunningInside(shuffled, min, max, position, draw, count);
    if position != -1 {
      nums[position] := 0;
    }
    r := nums[..count];
    RunningEnd(shuffled, min, max, position, draw, count, r);
  }

  lemma RunningInside(nums: seq<int>, min: int, max: int, position: int, draw: nat -> nat, count: nat)
    requires Running(nums, min, max, position, draw, count)
    ensures -1 <= position < |nums|
  {
  }

  /** The first entries, with the stand-in turned back into 0, are a sample. */
  lemma SamplePrefix(nums: seq<int>, min: int, max: int, position: int, r: seq<int>)
    requires Shuffled(nums, min, max) && Tracked(nums, min, max, position) && |r| <= |nums|
    requires forall j | 0 <= j < |r| :: nums[j] != 0 && r[j] == if j == position then 0 else nums[j]
    ensures Distinct(r) && forall j | 0 <= j < |r| :: min <= r[j] <= max
  {
    forall j | 0 <= j < |r|
      ensures min <= r[j] <= max && (r[j] == 0 ==> j == position)
    {
      assert Assigned(min, nums[j], j) == nums[j];
    }
    forall i, j | 0 <= i < j < |r|
      ensures r[i] != r[j]
    {
      assert Assigned(min, nums[i], i) != Assigned(min, nums[j], j);
    }
  }

  // ---- every sample can be drawn ------------------------------------------------------------------

  /** The generator that answers with the given positions. */
  function Positions(ds: seq<nat>): nat -> nat {
    (k: nat) => if k < |ds| then ds[k] else 0
  }

  /** Only the positions drawn so far matter. */
  lemma {:induction false} ShuffleUses(nums: seq<int>, d: nat -> nat, e: nat -> nat, n: nat)
    requires nums != [] && n <= |nums| && forall i: nat :: d(i) < |nums| && e(i) < |nums|
    requires forall i: nat | i < n :: d(i) == e(i)
    ensures Shuffle(nums, d, n) == Shuffle(nums, e, n)
  {
    if n > 0 {
      ShuffleUses(nums, d, e, n - 1);
    }
  }

  lemma SwapSame(nums: seq<int>, i: nat, j: nat)
    requires i < |nums| && j < |nums|
    ensures multiset(Swap(nums, i, j)) == multiset(nums)
  {
  }

  lemma {:induction false} ShufflePermutes(nums: seq<int>, draw: nat -> nat, n: nat)
    requires n <= |nums| && forall i: nat :: draw(i) < |nums| || nums == []
    ensures multiset(Shuffle(nums, draw, n)) == multiset(nums)
  {
    hide Swap;
    if n > 0 {
      ShufflePermutes(nums, draw, n - 1);
      SwapSame(Shuffle(nums, draw, n - 1), n - 1, draw(n - 1));
    }
  }

  lemma InRange(min: int, max: int, x: int)
    requires min <= x <= max
    ensures x in Range(min, max)
  {
    assert Range(min, max)[x - min] == x;
  }

  /** Where the next number of a sample stands once the first ones are drawn. */
  lemma FindNext(min: int, max: int, plain: seq<int>, r: seq<int>, n: nat) returns (k: nat)
    requires n < |r| && n < |plain| && plain[..n] == r[..n] && multiset(plain) == multiset(Range(min, max))
    requires min <= r[n] <= max && Distinct(r)
    ensures k < |plain| && plain[k] == r[n] && Swap(plain, n, k)[..n + 1] == r[..n + 1]
  {
    InRange(min, max, r[n]);
    assert r[n] in multiset(plain);
    k :| k < |plain| && plain[k] == r[n];
    assert forall j | 0 <= j < n :: plain[j] == plain[..n][j] == r[..n][j] == r[j];
    var next := Swap(plain, n, k);
    assert forall j | 0 <= j < n :: next[j] == r[j];
  }

  ghost predicate Draws(min: int, max: int, ds: seq<nat>, r: seq<int>) {
    && |ds| == |r| && |r| <= |Range(min, max)| && (forall i: nat :: Positions(ds)(i) < |Range(min, max)|)
    && Shuffle(Range(min, max), Positions(ds), |r|)[..|r|] == r
  }

  lemma DrawNext(min: int, max: int, ds: seq<nat>, r: seq<int>) returns (more: seq<nat>)
    requires r != [] && |r| <= |Range(min, max)| && Draws(min, max, ds, r[..|r| - 1])
    requires Distinct(r) && min <= r[|r| - 1] <= max
    ensures Draws(min, max, more, r)
  {
    hide Swap, Range;
    var nums, n := Range(min, max), |r| - 1;
    var plain := Shuffle(nums, Positions(ds), n);
    ShufflePermutes(nums, Positions(ds), n);
    var k := FindNext(min, max, plain, r, n);
    more := ds + [k];
    assert forall i: nat :: Positions(more)(i) == if i == n then k else Positions(ds)(i);
    ShuffleUses(nums, Positions(ds), Positions(more), n);
    assert r[..n + 1] == r;
  }

  /** Whatever sequence of distinct numbers of the range is asked for, some choice of the
      generator draws it. */
  lemma {:induction false} EverySample(min: int, max: int, r: seq<int>) returns (ds: seq<nat>)
    requires min <= max && |r| <= max - min + 1 && Distinct(r) && forall j | 0 <= j < |r| :: min <= r[j] <= max
    ensures Draws(min, max, ds, r)
  {
    if r == [] {
      ds := [];
    } else {
      hide Draws;
      var front := EverySample(min, max, r[..|r| - 1]);
      ds := DrawNext(min, max, front, r);
    }
  }

  // ---- choosing signers --------------------------------------------------------------------------

  /** `FindUnmatched`: the entries of `all` that are not in `child`, in order. */
  function Unmatched(child: seq<string>, all: seq<string>): seq<string> {
    if all == [] then []
    else
      var rest := Unmatched(child, all[..|all| - 1]);
      if all[|all| - 1] in child then rest else rest + [all[|all| - 1]]
  }

  lemma {:induction false} UnmatchedContents(child: seq<string>, all: seq<string>)
    ensures forall x :: x in Unmatched(child, all) <==> x in all && x !in child
    ensures Distinct(all) ==> Distinct(Unmatched(child, all))
  {
    if all != [] {
      var front, last := all[..|all| - 1], all[|all| - 1];
      UnmatchedContents(child, front);
      assert all == front + [last];
      if Distinct(all) {
        assert forall i | 0 <= i < |front| :: front[i] == all[i];
        assert last !in front;
      }
    }
  }

  method FindUnmatched(child: seq<string>, all: seq<string>) returns (unmatched: seq<string>)
    ensures unmatched == Unmatched(child, all)
  {
    unmatched := [];
    var i := 0;
    while i < |all|
      invariant 0 <= i <= |all|
      invariant unmatched == Unmatched(child, all[..i])
    {
      assert all[..i + 1][..i] == all[..i];
      if all[i] !in child {
        unmatched := unmatched + [all[i]];
      }
      i := i + 1;
    }
    assert all[..i] == all;
  }

  /** `randomSignerRequest`: with enough members the signers are `quorum` distinct
      members, and signers and non-parties together are all members, each once;
      otherwise there are no signers. */
  method RandomSigners(all: seq<string>, quorum: nat, draw: nat -> nat)
    returns (signers: seq<string>, others: seq<string>)
    requires all != [] ==> forall i: nat :: draw(i) < |all|
    requires Distinct(all)
    ensures |signers| == if 0 < |all| && quorum <= |all| then quorum else 0
    ensures Distinct(signers) && Distinct(others)
    ensures forall x :: x in all <==> x in signers || x in others
    ensures forall x | x in signers :: x !in others
  {
    var nums := RandRangeNumbers(0, |all| - 1, quorum, draw);
    signers := [];
    var i := 0;
    while i < |nums|
      invariant 0 <= i <= |nums| && |signers| == i
      invariant forall j | 0 <= j < i :: signers[j] == all[nums[j]]
    {
      signers := signers + [all[nums[i]]];
      i := i + 1;
    }
    assert Distinct(signers) by {
      forall a, b | 0 <= a < b < |signers|
        ensures signers[a] != signers[b]
      {
        assert nums[a] != nums[b];
      }
    }
    others := FindUnmatched(signers, all);
    UnmatchedContents(signers, all);
  }
}
