/** The timeout lists of handle.go: transaction ids per height, kept as one
    comma-separated string. */
module TimeoutList {
  import opened GoBytes
  import opened GoStrings

  // ---- lists of ids ---------------------------------------------------------------------------------

  predicate IsId(s: string) {
    s != "" && SepFree(s, ',')
  }

  predicate Ids(list: seq<string>) {
    forall i | 0 <= i < |list| :: IsId(list[i])
  }

  /** `getTimeoutList`. */
  function Parse(s: string): seq<string> {
    var list := Split(s, ',');
    if list[0] == "" then [] else list
  }

  /** The stored string of a list of ids reads back as that list. */
  lemma ParseJoin(list: seq<string>)
    requires Ids(list)
    ensures Parse(Join(list, ',')) == list
  {
    if list != [] { SplitJoin(list, ','); }
  }

  // ---- adding ------------------------------------------------------------------------------------------

  function WriteToStr(str: string, ids: string): string {
    if str == "" then ids else str + "," + ids
  }

  lemma JoinNonempty(a: seq<string>)
    requires Ids(a) && a != []
    ensures Join(a, ',') != ""
  {
    assert IsId(a[0]);
  }

  lemma {:induction false} JoinAppend(a: seq<string>, b: seq<string>)
    requires Ids(a) && Ids(b) && b != []
    ensures WriteToStr(Join(a, ','), Join(b, ',')) == Join(a + b, ',')
  {
    hide IsId;
    if a == [] {
      assert a + b == b;
    } else if |a| == 1 {
      JoinNonempty(a);
      assert (a + b)[1..] == b;
    } else {
      JoinNonempty(a);
      JoinNonempty(a[1..]);
      JoinAppend(a[1..], b);
      assert (a + b)[1..] == a[1..] + b;
    }
  }

  // ---- removing ----------------------------------------------------------------------------------------

  function Count(list: seq<string>, id: string): nat {
    if list == [] then 0 else Count(list[1..], id) + if list[0] == id then 1 else 0
  }

  /** What the in-place loop leaves: after a match the next entry moves into the
      position just visited and is never looked at. */
  function Sweep(list: seq<string>, id: string): seq<string> {
    if list == [] then []
    else if list[0] != id then [list[0]] + Sweep(list[1..], id)
    else if |list| == 1 then []
    else [list[1]] + Sweep(list[2..], id)
  }

  datatype Outcome = Done(str: string) | Panics

  /** Only a repeated id that is also the last one sends the loop past the end. */
  predicate SafeToRemove(list: seq<string>, id: string) {
    list != [] && list[|list| - 1] == id ==> Count(list, id) <= 1
  }

  lemma {:induction false} CountSplit(a: seq<string>, b: seq<string>, id: string)
    ensures Count(a + b, id) == Count(a, id) + Count(b, id)
  {
    if a == [] {
      assert a + b == b;
    } else {
      CountSplit(a[1..], b, id);
      assert (a + b)[1..] == a[1..] + b;
    }
  }

  lemma {:induction false} CountNone(list: seq<string>, id: string)
    requires id !in list
    ensures Count(list, id) == 0
  {
    if list != [] { CountNone(list[1..], id); }
  }

  /** A list that ends in `id` is safe exactly when `id` occurs nowhere else. */
  lemma SafeWhen(list: seq<string>, id: string)
    requires list != [] && list[|list| - 1] == id
    ensures SafeToRemove(list, id) <==> id !in list[..|list| - 1]
  {
    var n := |list|;
    var front := list[..n - 1];
    assert list == front + [id];
    CountSplit(front, [id], id);
    if id !in front {
      CountNone(front, id);
    } else {
      var j :| 0 <= j < |front| && front[j] == id;
      CountSplit(front[..j], front[j..], id);
      assert front == front[..j] + front[j..];
    }
  }

  /** The state of the loop at `index`: `arr` is the backing array, `len` the current
      length of the slice, and `|words| - len` entries have been cut out. */
  ghost predicate Sweeping(words: seq<string>, id: string, arr: seq<string>, len: nat, index: nat) {
    var n := |words|;
    var cut := n - len;
    && |arr| == n && len <= n && index <= n && cut <= index
    && (if cut == 0 then arr == words && id !in words[..index]
        else (forall j | len <= j < n :: arr[j] == words[n - 1]) && (index < n ==> id in words[..n - 1]))
    && (if index <= len
        then arr[index..len] == words[index + cut..]
             && Sweep(words, id) == arr[..index] + Sweep(words[index + cut..], id)
        else Sweep(words, id) == arr[..len])
    && (index == n ==> SafeToRemove(words, id))
  }

  /** The backing array after `append(list[:index], list[index+1:]...)`. */
  function ShiftDown(arr: seq<string>, len: nat, index: nat): seq<string>
    requires index < len <= |arr|
  {
    arr[..index] + arr[index + 1..len] + arr[len - 1..]
  }

  lemma {:induction false} SweepNone(list: seq<string>, id: string)
    requires id !in list
    ensures Sweep(list, id) == list
  {
    if list != [] {
      SweepNone(list[1..], id);
      assert list == [list[0]] + list[1..];
    }
  }

  lemma SweepingStart(words: seq<string>, id: string)
    requires words != []
    ensures Sweeping(words, id, words, |words|, 0)
  {
  }

  lemma SweepingPast(words: seq<string>, id: string, arr: seq<string>, len: nat, index: nat)
    requires Sweeping(words, id, arr, len, index) && index < |words| && arr[index] != id
    ensures Sweeping(words, id, arr, len, index + 1)
  {
    var n, cut := |words|, |words| - len;
    if index < len {
      var rest := words[index + cut..];
      assert rest[0] == arr[index..len][0] == arr[index];
      assert rest[1..] == words[index + 1 + cut..];
      assert arr[..index + 1] == arr[..index] + [arr[index]];
      assert arr[index + 1..len] == arr[index..len][1..];
    }
    if cut == 0 { assert words[..index + 1] == words[..index] + [words[index]]; }
  }

  lemma ShiftFacts(arr: seq<string>, len: nat, index: nat)
    requires index < len <= |arr|
    ensures var next := ShiftDown(arr, len, index);
            && |next| == |arr| && next[..index] == arr[..index] && next[index..len - 1] == arr[index + 1..len]
            && next[len - 1..] == arr[len - 1..]
  {
  }

  lemma SweepingCut(words: seq<string>, id: string, arr: seq<string>, len: nat, index: nat)
    requires Sweeping(words, id, arr, len, index) && index < |words| && arr[index] == id && index < len
    ensures Sweeping(words, id, ShiftDown(arr, len, index), len - 1, index + 1)
  {
    hide ShiftDown, SafeToRemove;
    var n, cut := |words|, |words| - len;
    var next := ShiftDown(arr, len, index);
    ShiftFacts(arr, len, index);
    var rest := words[index + cut..];
    assert rest == arr[index..len] && rest[0] == id;
    assert arr[len - 1] == rest[|rest| - 1] == words[n - 1];
    forall j | len - 1 <= j < n
      ensures next[j] == words[n - 1]
    {
      assert next[j] == next[len - 1..][j - (len - 1)] == arr[j];
    }
    CutSweep(words, id, arr, next, len, index);
    if index + 1 < n {
      if cut == 0 { assert words[..n - 1][index] == id; }
    } else {
      SafeWhen(words, id);
      assert words[..n - 1] == words[..index];
    }
  }

  lemma CutSweep(words: seq<string>, id: string, arr: seq<string>, next: seq<string>, len: nat, index: nat)
    requires index < len <= |words| == |arr| == |next| && arr[index] == id
    requires index + (|words| - len) < |words|
    requires arr[index..len] == words[index + (|words| - len)..]
    requires Sweep(words, id) == arr[..index] + Sweep(words[index + (|words| - len)..], id)
    requires next[..index] == arr[..index] && next[index..len - 1] == arr[index + 1..len]
    ensures if index + 1 <= len - 1
            then next[index + 1..len - 1] == words[index + 1 + (|words| - len) + 1..]
                 && Sweep(words, id) == next[..index + 1] + Sweep(words[index + 1 + (|words| - len) + 1..], id)
            else Sweep(words, id) == next[..len - 1]
  {
    var rest := words[index + (|words| - len)..];
    assert rest[0] == arr[index..len][0] == id;
    if index + 1 < len {
      assert rest[2..] == words[index + 1 + (|words| - len) + 1..];
      assert next[index] == next[index..len - 1][0] == arr[index + 1..len][0] == arr[index..len][1] == rest[1];
      assert next[..index + 1] == next[..index] + [next[index]];
      assert next[index + 1..len - 1] == next[index..len - 1][1..] == rest[2..];
    } else {
      assert rest == [id];
    }
  }

  lemma SweepingPanics(words: seq<string>, id: string, arr: seq<string>, len: nat, index: nat)
    requires Sweeping(words, id, arr, len, index) && index < |words| && arr[index] == id && index >= len
    ensures !SafeToRemove(words, id)
  {
    SafeWhen(words, id);
  }

  method Shift(list: array<string>, len: nat, index: nat)
    requires index < len <= list.Length
    modifies list
    ensures list[..] == ShiftDown(old(list[..]), len, index)
  {
    var k := index;
    while k + 1 < len
      invariant index <= k < len
      invariant forall j | 0 <= j < list.Length :: list[j] == if index <= j < k then old(list[j + 1]) else old(list[j])
    {
      list[k] := list[k + 1];
      k := k + 1;
    }
  }

  /** `removeFromStr`: it panics exactly if the id is repeated and last, and otherwise
      leaves the sweep of the list. */
  method RemoveFromStr(str: string, id: string) returns (r: Outcome)
    ensures r.Done? <==> SafeToRemove(Split(str, ','), id)
    ensures r.Done? ==> r.str == Join(Sweep(Split(str, ','), id), ',')
  {
    hide Sweeping, Sweep, SafeToRemove, ShiftDown;
    var words := Split(str, ',');
    var n := |words|;
    var list := new string[n](i requires 0 <= i < |words| => words[i]);
    var len := n;
    var index := 0;
    assert list[..] == words;
    SweepingStart(words, id);
    while index < n
      invariant 0 <= index <= n && 0 <= len <= n
      invariant Sweeping(words, id, list[..], len, index)
    {
      if list[index] == id {
        if index + 1 > len {
          SweepingPanics(words, id, list[..], len, index);
          return Panics;
        }
        SweepingCut(words, id, list[..], len, index);
        Shift(list, len, index);
        len := len - 1;
      } else {
        SweepingPast(words, id, list[..], len, index);
      }
      index := index + 1;
    }
    r := Done(Join(list[..len], ','));
    SweepingEnd(words, id, list[..], len);
  }

  lemma SweepingEnd(words: seq<string>, id: string, arr: seq<string>, len: nat)
    requires Sweeping(words, id, arr, len, |words|)
    ensures SafeToRemove(words, id) && Sweep(words, id) == arr[..len]
  {
    if len == |words| { assert words[|words|..] == []; }
  }

  // ---- when removing works -----------------------------------------------------------------------------

  predicate NoAdjacent(list: seq<string>, id: string) {
    forall i | 0 <= i < |list| - 1 :: !(list[i] == id && list[i + 1] == id)
  }

  lemma {:induction false} SweepRemovesIff(list: seq<string>, id: string)
    ensures Sweep(list, id) == Without(list, id) <==> NoAdjacent(list, id)
    decreases |list|
  {
    if |list| >= 2 {
      assert list[1..][1..] == list[2..];
      if list[0] != id {
        SweepRemovesIff(list[1..], id);
        NoAdjacentTail(list, id);
        SamePrepended(list[0], Sweep(list[1..], id), Without(list[1..], id));
      } else if list[1] == id {
        WithoutContents(list, id);
        assert id in Sweep(list, id);
        assert !NoAdjacent(list, id);
      } else {
        SweepRemovesIff(list[2..], id);
        NoAdjacentTail(list, id);
        NoAdjacentTail(list[1..], id);
        assert Without(list, id) == Without(list[1..], id) == [list[1]] + Without(list[2..], id);
        SamePrepended(list[1], Sweep(list[2..], id), Without(list[2..], id));
      }
    }
  }

  lemma SamePrepended(x: string, a: seq<string>, b: seq<string>)
    ensures [x] + a == [x] + b <==> a == b
  {
    if [x] + a == [x] + b {
      assert a == ([x] + a)[1..] == ([x] + b)[1..] == b;
    }
  }

  lemma NoAdjacentTail(list: seq<string>, id: string)
    requires list != [] && (|list| >= 2 ==> list[0] != id || list[1] != id)
    ensures NoAdjacent(list, id) <==> NoAdjacent(list[1..], id)
  {
    if NoAdjacent(list[1..], id) {
      forall i | 0 <= i < |list| - 1
        ensures !(list[i] == id && list[i + 1] == id)
      {
        if i > 0 { assert !(list[1..][i - 1] == id && list[1..][i] == id); }
      }
    }
    if NoAdjacent(list, id) {
      forall i | 0 <= i < |list[1..]| - 1
        ensures !(list[1..][i] == id && list[1..][i + 1] == id)
      {
        assert !(list[i + 1] == id && list[i + 2] == id);
      }
    }
  }

  lemma AdjacentCounts(list: seq<string>, id: string, i: nat)
    requires i + 1 < |list| && list[i] == id && list[i + 1] == id
    ensures Count(list, id) >= 2
  {
    CountSplit(list[..i], list[i..], id);
    assert list == list[..i] + list[i..];
    assert list[i..][1..] == list[i + 1..] && list[i + 1..][0] == id;
  }

  /** `removeFromStr` removes every occurrence, without panic, exactly if the id occurs
      at most once, or is not last and never stands next to itself. */
  lemma RemovalCorrectIff(list: seq<string>, id: string)
    requires list != []
    ensures SafeToRemove(list, id) && Sweep(list, id) == Without(list, id) <==>
            Count(list, id) <= 1 || (list[|list| - 1] != id && NoAdjacent(list, id))
  {
    SweepRemovesIff(list, id);
    if !NoAdjacent(list, id) {
      var i :| 0 <= i < |list| - 1 && list[i] == id && list[i + 1] == id;
      AdjacentCounts(list, id, i);
    }
  }

  // ---- removing several ids ---------------------------------------------------------------------------------

  /** Removing the ids one after the other, or nothing where a removal panics. */
  function Removed(list: seq<string>, ids: seq<string>): Option<seq<string>> {
    if ids == [] then Some(list)
    else
      var id := ids[|ids| - 1];
      match Removed(list, ids[..|ids| - 1])
      case None => None
      case Some(l) => if SafeToRemove(l, id) then Some(Sweep(l, id)) else None
  }

  function WithoutAll(list: seq<string>, ids: seq<string>): seq<string> {
    if ids == [] then list else Without(WithoutAll(list, ids[..|ids| - 1]), ids[|ids| - 1])
  }

  /** When removing one id removes it. */
  predicate Removable(list: seq<string>, id: string) {
    Count(list, id) <= 1 || (list[|list| - 1] != id && NoAdjacent(list, id))
  }

  /** ... at every step. */
  predicate AllRemovable(list: seq<string>, ids: seq<string>) {
    forall i | 0 <= i < |ids| :: Removable(WithoutAll(list, ids[..i]), ids[i])
  }

  lemma {:induction false} SweepIds(list: seq<string>, id: string)
    requires Ids(list)
    ensures Ids(Sweep(list, id))
    decreases |list|
  {
    hide IsId;
    if list != [] {
      assert IsId(list[0]);
      if list[0] != id {
        SweepIds(list[1..], id);
      } else if |list| > 1 {
        assert IsId(list[1]);
        SweepIds(list[2..], id);
      }
    }
  }

  lemma {:induction false} RemovedIds(list: seq<string>, ids: seq<string>)
    requires Ids(list)
    ensures Removed(list, ids).Some? ==> Ids(Removed(list, ids).value)
  {
    hide Ids, Sweep, SafeToRemove;
    if ids != [] {
      RemovedIds(list, ids[..|ids| - 1]);
      var l := Removed(list, ids[..|ids| - 1]);
      if l.Some? {
        SweepIds(l.value, ids[|ids| - 1]);
      }
    }
  }

  /** On the string of a list of ids, removing an id removes it from the list. */
  lemma RemoveOnString(list: seq<string>, id: string)
    requires Ids(list) && IsId(id)
    ensures var words := Split(Join(list, ','), ',');
            && (SafeToRemove(words, id) <==> SafeToRemove(list, id))
            && Join(Sweep(words, id), ',') == Join(Sweep(list, id), ',')
  {
    if list == [] {
      assert Split("", ',') == [""];
      assert [""][1..] == [];
      assert Join([""], ',') == [""][0];
      assert Sweep([""], id) == [""] && Sweep([], id) == [];
    } else {
      SplitJoin(list, ',');
    }
  }

  lemma RemovedStep(list: seq<string>, ids: seq<string>, i: nat)
    requires i < |ids|
    ensures Removed(list, ids[..i + 1]) ==
            match Removed(list, ids[..i])
            case None => None
            case Some(l) => if SafeToRemove(l, ids[i]) then Some(Sweep(l, ids[i])) else None
  {
    assert ids[..i + 1][..i] == ids[..i];
  }

  /** Once a removal has panicked, nothing comes of the rest. */
  lemma {:induction false} RemovedNone(list: seq<string>, ids: seq<string>, i: nat)
    requires i <= |ids| && Removed(list, ids[..i]).None?
    ensures Removed(list, ids).None?
    decreases |ids| - i
  {
    if i < |ids| {
      RemovedStep(list, ids, i);
      RemovedNone(list, ids, i + 1);
    } else {
      assert ids[..i] == ids;
    }
  }

  /** Where every single removal is right, so is the whole. */
  lemma {:induction false} RemovedWhen(list: seq<string>, ids: seq<string>)
    requires AllRemovable(list, ids)
    ensures Removed(list, ids) == Some(WithoutAll(list, ids))
  {
    hide Removable, SafeToRemove, Sweep;
    if ids != [] {
      var front, id := ids[..|ids| - 1], ids[|ids| - 1];
      assert AllRemovable(list, front) by {
        forall i | 0 <= i < |front|
          ensures Removable(WithoutAll(list, front[..i]), front[i])
        {
          assert front[..i] == ids[..i];
        }
      }
      RemovedWhen(list, front);
      assert Removable(WithoutAll(list, ids[..|ids| - 1]), ids[|ids| - 1]);
      RemovableMeans(WithoutAll(list, front), id);
    }
  }

  lemma RemovableMeans(list: seq<string>, id: string)
    ensures SafeToRemove(list, id) && Sweep(list, id) == Without(list, id) <==> Removable(list, id)
  {
    if list != [] { RemovalCorrectIff(list, id); }
  }

  /** A sweep takes nothing but the id. */
  lemma {:induction false} SweepOthers(list: seq<string>, id: string)
    ensures Without(Sweep(list, id), id) == Without(list, id)
    decreases |list|
  {
    if list != [] {
      if list[0] != id {
        SweepOthers(list[1..], id);
        assert ([list[0]] + Sweep(list[1..], id))[1..] == Sweep(list[1..], id);
      } else if |list| > 1 {
        SweepOthers(list[2..], id);
        assert list[1..][1..] == list[2..];
        assert ([list[1]] + Sweep(list[2..], id))[1..] == Sweep(list[2..], id);
      }
    }
  }

  lemma {:induction false} WithoutAbsent(list: seq<string>, id: string)
    requires id !in list
    ensures Without(list, id) == list
  {
    if list != [] { WithoutAbsent(list[1..], id); }
  }

  /** A sweep that misses an occurrence leaves the id in the list, and no sweep of another
      id takes it out. */
  lemma Missed(list: seq<string>, id: string, x: string)
    ensures Sweep(list, id) != Without(list, id) ==> id in Sweep(list, id)
    ensures x != id && x in list ==> x in Sweep(list, id)
  {
    hide Sweep;
    SweepOthers(list, id);
    WithoutContents(list, id);
    WithoutContents(Sweep(list, id), id);
    if id !in Sweep(list, id) {
      WithoutAbsent(Sweep(list, id), id);
    }
  }

  lemma {:induction false} StillThere(list: seq<string>, ids: seq<string>, i: nat, x: string)
    requires i <= |ids| && Removed(list, ids[..i]).Some? && x in Removed(list, ids[..i]).value && x !in ids[i..]
    ensures Removed(list, ids).Some? ==> x in Removed(list, ids).value
    decreases |ids| - i
  {
    hide Sweep, SafeToRemove;
    if i < |ids| {
      RemovedStep(list, ids, i);
      if Removed(list, ids[..i + 1]).Some? {
        assert ids[i] in ids[i..] && forall y :: y in ids[i + 1..] ==> y in ids[i..];
        Missed(Removed(list, ids[..i]).value, ids[i], x);
        StillThere(list, ids, i + 1, x);
      } else {
        RemovedNone(list, ids, i + 1);
      }
    } else {
      assert ids[..i] == ids;
    }
  }

  /** Removing different ids takes out every occurrence of each, without panic, exactly if
      every single removal does. */
  lemma RemovedCorrectIff(list: seq<string>, ids: seq<string>)
    requires Distinct(ids)
    ensures Removed(list, ids) == Some(WithoutAll(list, ids)) <==> AllRemovable(list, ids)
  {
    hide Removable;
    if AllRemovable(list, ids) {
      RemovedWhen(list, ids);
    } else {
      FirstMissed(list, ids, 0);
    }
  }

  lemma {:induction false} FirstMissed(list: seq<string>, ids: seq<string>, i: nat)
    requires Distinct(ids) && i <= |ids| && !AllRemovable(list, ids)
    requires forall j | 0 <= j < i :: Removable(WithoutAll(list, ids[..j]), ids[j])
    ensures Removed(list, ids) != Some(WithoutAll(list, ids))
    decreases |ids| - i
  {
    hide Removable, Sweep, SafeToRemove;
    if Removable(WithoutAll(list, ids[..i]), ids[i]) {
      FirstMissed(list, ids, i + 1);
    } else {
      var x, l := ids[i], WithoutAll(list, ids[..i]);
      assert AllRemovable(list, ids[..i]) by {
        forall j | 0 <= j < i
          ensures Removable(WithoutAll(list, ids[..i][..j]), ids[..i][j])
        {
          assert ids[..i][..j] == ids[..j];
        }
      }
      RemovedWhen(list, ids[..i]);
      RemovedStep(list, ids, i);
      RemovableMeans(l, x);
      if SafeToRemove(l, x) {
        Missed(l, x, x);
        assert x !in ids[i + 1..];
        StillThere(list, ids, i + 1, x);
        WithoutAllContents(list, ids, x);
      } else {
        RemovedNone(list, ids, i + 1);
      }
    }
  }

  // ---- lists without duplicates ---------------------------------------------------------------------------

  lemma {:induction false} DistinctCount(list: seq<string>, id: string)
    requires Distinct(list)
    ensures Count(list, id) <= 1
  {
    if list != [] {
      DistinctCount(list[1..], id);
      if list[0] == id {
        assert id !in list[1..];
        CountNone(list[1..], id);
      }
    }
  }

  lemma {:induction false} WithoutAllDistinct(list: seq<string>, ids: seq<string>)
    requires Distinct(list)
    ensures Distinct(WithoutAll(list, ids))
  {
    if ids != [] {
      WithoutAllDistinct(list, ids[..|ids| - 1]);
      WithoutDistinct(WithoutAll(list, ids[..|ids| - 1]), ids[|ids| - 1]);
    }
  }

  /** From a list in which no id repeats, every removal is right. */
  lemma DistinctRemoved(list: seq<string>, ids: seq<string>)
    requires Distinct(list)
    ensures Removed(list, ids) == Some(WithoutAll(list, ids))
  {
    forall i | 0 <= i < |ids|
      ensures Removable(WithoutAll(list, ids[..i]), ids[i])
    {
      WithoutAllDistinct(list, ids[..i]);
      DistinctCount(WithoutAll(list, ids[..i]), ids[i]);
    }
    RemovedWhen(list, ids);
  }

  // ---- setTimeoutList -------------------------------------------------------------------------------------

  /** What a transaction of the block means for the lists. */
  datatype Item =
    | Request(height: nat, id: string)
    | Response(height: nat, id: string)
    | Ignored
    | Unreadable

  function Added(items: seq<Item>, h: nat): seq<string> {
    if items == [] then []
    else
      var last := items[|items| - 1];
      Added(items[..|items| - 1], h) + if last.Request? && last.height == h then [last.id] else []
  }

  function Dropped(items: seq<Item>, h: nat): seq<string> {
    if items == [] then []
    else
      var last := items[|items| - 1];
      Dropped(items[..|items| - 1], h) + if last.Response? && last.height == h then [last.id] else []
  }

  predicate ItemOk(i: Item) {
    (i.Request? || i.Response?) ==> IsId(i.id)
  }

  lemma {:induction false} AddedIds(items: seq<Item>, h: nat)
    requires forall i | 0 <= i < |items| :: ItemOk(items[i])
    ensures Ids(Added(items, h)) && Ids(Dropped(items, h))
  {
    if items != [] { AddedIds(items[..|items| - 1], h); }
  }

  /** Exactly the ids to be removed are gone. */
  lemma {:induction false} WithoutAllContents(list: seq<string>, ids: seq<string>, x: string)
    ensures x in WithoutAll(list, ids) <==> x in list && x !in ids
  {
    if ids != [] {
      var last := ids[|ids| - 1];
      WithoutAllContents(list, ids[..|ids| - 1], x);
      WithoutContents(WithoutAll(list, ids[..|ids| - 1]), last);
      assert ids == ids[..|ids| - 1] + [last];
    }
  }

  function Str(state: map<nat, string>, h: nat): string {
    if h in state then state[h] else ""
  }

  /** `m` holds, per height, the joined ids. */
  ghost predicate Holds(m: map<nat, string>, ids: nat -> seq<string>) {
    forall h: nat :: (h in m <==> ids(h) != []) && (h in m ==> m[h] == Join(ids(h), ','))
  }

  /** One more id for one height. */
  method Note(m: map<nat, string>, h: nat, id: string, ghost ids: nat -> seq<string>, ghost next: nat -> seq<string>)
    returns (r: map<nat, string>)
    requires Holds(m, ids) && IsId(id) && Ids(ids(h))
    requires forall g: nat :: next(g) == if g == h then ids(h) + [id] else ids(g)
    ensures Holds(r, next)
  {
    if h in m {
      JoinAppend(ids(h), [id]);
      r := m[h := WriteToStr(m[h], id)];
    } else {
      r := m[h := id];
    }
  }

  /** One transaction of the first loop. */
  method CollectItem(item: Item, ghost seen: seq<Item>, adds: map<nat, string>, drops: map<nat, string>)
    returns (adds': map<nat, string>, drops': map<nat, string>)
    requires ItemOk(item) && forall i | 0 <= i < |seen| :: ItemOk(seen[i])
    requires Holds(adds, (h: nat) => Added(seen, h)) && Holds(drops, (h: nat) => Dropped(seen, h))
    ensures Holds(adds', (h: nat) => Added(seen + [item], h)) && Holds(drops', (h: nat) => Dropped(seen + [item], h))
  {
    hide Holds, Ids, IsId;
    adds', drops' := adds, drops;
    assert (seen + [item])[..|seen|] == seen;
    ghost var added, dropped := (h: nat) => Added(seen, h), (h: nat) => Dropped(seen, h);
    ghost var added', dropped' := (h: nat) => Added(seen + [item], h), (h: nat) => Dropped(seen + [item], h);
    match item {
      case Request(h, id) =>
        AddedIds(seen, h);
        adds' := Note(adds, h, id, added, added');
        SameHeld(drops, dropped, dropped');
      case Response(h, id) =>
        AddedIds(seen, h);
        drops' := Note(drops, h, id, dropped, dropped');
        SameHeld(adds, added, added');
      case _ =>
        SameHeld(adds, added, added');
        SameHeld(drops, dropped, dropped');
    }
  }

  /** The first loop: what to add and what to remove, per height. */
  method Collect(items: seq<Item>) returns (ok: bool, adds: map<nat, string>, drops: map<nat, string>)
    requires forall i | 0 <= i < |items| :: ItemOk(items[i])
    ensures ok <==> Unreadable !in items
    ensures ok ==> Holds(adds, (h: nat) => Added(items, h)) && Holds(drops, (h: nat) => Dropped(items, h))
  {
    hide Holds, Added, Dropped, ItemOk;
    adds, drops := map[], map[];
    NothingHeld();
    var i := 0;
    assert items[..0] == [];
    while i < |items|
      invariant 0 <= i <= |items| && Unreadable !in items[..i]
      invariant Holds(adds, (h: nat) => Added(items[..i], h)) && Holds(drops, (h: nat) => Dropped(items[..i], h))
    {
      if items[i].Unreadable? {
        return false, adds, drops;
      }
      assert items[..i + 1] == items[..i] + [items[i]];
      adds, drops := CollectItem(items[i], items[..i], adds, drops);
      i := i + 1;
    }
    assert items[..i] == items;
    ok := true;
  }

  lemma NothingHeld()
    ensures Holds(map[], (h: nat) => Added([], h)) && Holds(map[], (h: nat) => Dropped([], h))
  {
  }

  lemma SameHeld(m: map<nat, string>, ids: nat -> seq<string>, next: nat -> seq<string>)
    requires Holds(m, ids) && forall g: nat :: next(g) == ids(g)
    ensures Holds(m, next)
  {
  }

  /** `removeFromStr` as a function. */
  function RemoveStr(str: string, id: string): Outcome {
    var words := Split(str, ',');
    if SafeToRemove(words, id) then Done(Join(Sweep(words, id), ',')) else Panics
  }

  function RemoveStrs(str: string, ids: seq<string>): Outcome {
    if ids == [] then Done(str)
    else
      match RemoveStrs(str, ids[..|ids| - 1])
      case Panics => Panics
      case Done(s) => RemoveStr(s, ids[|ids| - 1])
  }

  /** On the strings of lists of ids, it removes the ids from the list. */
  lemma {:induction false} RemoveStrsOf(list: seq<string>, ids: seq<string>)
    requires Ids(list) && Ids(ids)
    ensures RemoveStrs(Join(list, ','), ids) ==
            match Removed(list, ids) case None => Panics case Some(l) => Done(Join(l, ','))
  {
    hide Sweep, SafeToRemove, Join, Split;
    if ids != [] {
      var front := ids[..|ids| - 1];
      assert Ids(front) && IsId(ids[|ids| - 1]);
      RemoveStrsOf(list, front);
      RemovedIds(list, front);
      if Removed(list, front).Some? {
        RemoveOnString(Removed(list, front).value, ids[|ids| - 1]);
      }
    }
  }

  /** `removeTimeoutList`. */
  method RemoveTimeoutList(str: string, ids: string) returns (r: Outcome)
    ensures r == RemoveStrs(str, Split(ids, ','))
  {
    hide Sweep, SafeToRemove, Join, Split;
    var words := Split(ids, ',');
    var current := str;
    var i := 0;
    while i < |words|
      invariant 0 <= i <= |words|
      invariant RemoveStrs(str, words[..i]) == Done(current)
    {
      RemoveStrsStep(str, words, i);
      var out := RemoveFromStr(current, words[i]);
      if out.Panics? {
        PanicStays(str, words, i + 1);
        return Panics;
      }
      current := out.str;
      i := i + 1;
    }
    assert words[..i] == words;
    r := Done(current);
  }

  lemma RemoveStrsStep(str: string, ids: seq<string>, i: nat)
    requires i < |ids|
    ensures RemoveStrs(str, ids[..i + 1]) ==
            match RemoveStrs(str, ids[..i]) case Panics => Panics case Done(s) => RemoveStr(s, ids[i])
  {
    assert ids[..i + 1][..i] == ids[..i];
  }

  lemma {:induction false} PanicStays(str: string, ids: seq<string>, i: nat)
    requires i <= |ids| && RemoveStrs(str, ids[..i]).Panics?
    ensures RemoveStrs(str, ids).Panics?
    decreases |ids| - i
  {
    if i < |ids| {
      RemoveStrsStep(str, ids, i);
      PanicStays(str, ids, i + 1);
    } else {
      assert ids[..i] == ids;
    }
  }

  /** The loop over the added ids: each height gets its own appended. */
  method ApplyAdds(
      state: map<nat, string>, adds: map<nat, string>, ghost lists: nat -> seq<string>, ghost more: nat -> seq<string>)
    returns (r: map<nat, string>)
    requires Holds(adds, more) && forall h: nat :: Ids(lists(h)) && Ids(more(h)) && Str(state, h) == Join(lists(h), ',')
    ensures forall h: nat :: Str(r, h) == Join(lists(h) + more(h), ',')
  {
    hide Join, WriteToStr, Ids;
    r := state;
    var todo := adds.Keys;
    while todo != {}
      invariant todo <= adds.Keys
      invariant forall h: nat ::
                  Str(r, h) == if h in adds && h !in todo then Join(lists(h) + more(h), ',') else Str(state, h)
      decreases |todo|
    {
      var h :| h in todo;
      JoinAppend(lists(h), more(h));
      r := r[h := WriteToStr(Str(r, h), adds[h])];
      todo := todo - {h};
    }
    forall h: nat
      ensures Str(r, h) == Join(lists(h) + more(h), ',')
    {
      if h !in adds { assert lists(h) + more(h) == lists(h); }
    }
  }

  /** The list that is left at a height, or nothing where the removal panics. */
  ghost predicate Left(str: string, list: seq<string>, less: seq<string>) {
    Removed(list, less).Some? && str == Join(Removed(list, less).value, ',')
  }

  lemma LeftOf(str: string, list: seq<string>, less: seq<string>)
    requires Ids(list) && Ids(less) && less != [] && str == Join(list, ',')
    ensures Split(Join(less, ','), ',') == less
    ensures var r := RemoveStrs(str, less);
            (r.Done? <==> Removed(list, less).Some?) && (r.Done? ==> Left(r.str, list, less))
  {
    SplitJoin(less, ',');
    RemoveStrsOf(list, less);
  }

  /** The loop over the removed ids. */
  method ApplyDrops(
      state: map<nat, string>, drops: map<nat, string>, ghost lists: nat -> seq<string>, ghost less: nat -> seq<string>)
    returns (r: Option<map<nat, string>>)
    requires Holds(drops, less)
    requires forall h: nat :: Ids(lists(h)) && Ids(less(h)) && Str(state, h) == Join(lists(h), ',')
    ensures r.Some? <==> forall h: nat :: Removed(lists(h), less(h)).Some?
    ensures r.Some? ==> forall h: nat :: Left(Str(r.value, h), lists(h), less(h))
  {
    hide Join, Ids, Removed, RemoveStrs, Left;
    var m := state;
    var todo := drops.Keys;
    while todo != {}
      invariant todo <= drops.Keys
      invariant forall h: nat :: h in drops && h !in todo ==> Left(Str(m, h), lists(h), less(h))
      invariant forall h: nat :: h !in drops || h in todo ==> Str(m, h) == Str(state, h)
      decreases |todo|
    {
      var h :| h in todo;
      LeftOf(Str(m, h), lists(h), less(h));
      var s := RemoveTimeoutList(Str(m, h), drops[h]);
      if s.Panics? {
        return None;
      }
      m := m[h := s.str];
      todo := todo - {h};
    }
    forall h: nat
      ensures Left(Str(m, h), lists(h), less(h)) && Removed(lists(h), less(h)).Some?
    {
      if h !in drops { NothingLess(Str(m, h), lists(h), less(h)); } else { LeftSome(Str(m, h), lists(h), less(h)); }
    }
    r := Some(m);
  }

  lemma NothingLess(str: string, list: seq<string>, less: seq<string>)
    requires less == [] && str == Join(list, ',')
    ensures Left(str, list, less) && Removed(list, less).Some?
  {
  }

  lemma LeftSome(str: string, list: seq<string>, less: seq<string>)
    requires Left(str, list, less)
    ensures Removed(list, less).Some?
  {
  }

  /** Every height ends with its old list and the added ids, less what the removals take, in
      whatever order the heights are visited.  It panics exactly if a removal does, and an
      unreadable record leaves all as it was. */
  method SetTimeoutList(state: map<nat, string>, items: seq<Item>, ghost lists: nat -> seq<string>)
    returns (r: Option<map<nat, string>>)
    requires forall i | 0 <= i < |items| :: ItemOk(items[i])
    requires forall h: nat :: Ids(lists(h)) && Str(state, h) == Join(lists(h), ',')
    ensures Unreadable in items ==> r == Some(state)
    ensures Unreadable !in items ==>
            (r.Some? <==> forall h: nat :: Removed(lists(h) + Added(items, h), Dropped(items, h)).Some?)
    ensures Unreadable !in items && r.Some? ==>
            forall h: nat :: Some(Parse(Str(r.value, h))) == Removed(lists(h) + Added(items, h), Dropped(items, h))
  {
    hide Holds, Removed, Left, Join, Parse;
    var ok, adds, drops := Collect(items);
    if !ok { return Some(state); }
    forall h: nat { AddedIds(items, h); }
    var added := ApplyAdds(state, adds, lists, (h: nat) => Added(items, h));
    r := ApplyDrops(added, drops, (h: nat) => lists(h) + Added(items, h), (h: nat) => Dropped(items, h));
    if r.Some? {
      forall h: nat
        ensures Some(Parse(Str(r.value, h))) == Removed(lists(h) + Added(items, h), Dropped(items, h))
      {
        ParseLeft(Str(r.value, h), lists(h) + Added(items, h), Dropped(items, h));
      }
    }
  }

  lemma ParseLeft(str: string, list: seq<string>, less: seq<string>)
    requires Ids(list) && Left(str, list, less)
    ensures Some(Parse(str)) == Removed(list, less)
  {
    RemovedIds(list, less);
    ParseJoin(Removed(list, less).value);
  }
}
