/** `strings.Split` and `strings.Join` with a one-character separator. */
module GoStrings {
  import opened GoBytes

  function Split(s: string, sep: char): (r: seq<string>)
    ensures r != []
  {
    if s == "" then [""]
    else
      var rest := Split(s[1..], sep);
      if s[0] == sep then [""] + rest else [[s[0]] + rest[0]] + rest[1..]
  }

  function Join(list: seq<string>, sep: char): string {
    if list == [] then "" else if |list| == 1 then list[0] else list[0] + [sep] + Join(list[1..], sep)
  }

  predicate SepFree(s: string, sep: char) {
    sep !in s
  }

  lemma {:induction false} SplitWord(w: string, sep: char)
    requires SepFree(w, sep)
    ensures Split(w, sep) == [w]
  {
    if w != "" {
      SplitWord(w[1..], sep);
      assert w == [w[0]] + w[1..];
    }
  }

  lemma {:induction false} SplitFirst(w: string, s: string, sep: char)
    requires SepFree(w, sep)
    ensures Split(w + [sep] + s, sep) == [w] + Split(s, sep)
  {
    var t := w + [sep] + s;
    if w == "" {
      assert t[1..] == s;
    } else {
      SplitFirst(w[1..], s, sep);
      assert t[0] == w[0] && t[1..] == w[1..] + [sep] + s;
      assert [w[0]] + w[1..] == w;
    }
  }

  /** Splitting a joined list gives the list back. */
  lemma {:induction false} SplitJoin(list: seq<string>, sep: char)
    requires list != [] && forall i | 0 <= i < |list| :: SepFree(list[i], sep)
    ensures Split(Join(list, sep), sep) == list
  {
    if |list| == 1 {
      SplitWord(list[0], sep);
    } else {
      SplitFirst(list[0], Join(list[1..], sep), sep);
      SplitJoin(list[1..], sep);
    }
  }

  /** Joining the parts of a split string gives the string back. */
  lemma {:induction false} JoinSplit(s: string, sep: char)
    ensures Join(Split(s, sep), sep) == s
  {
    if s != "" {
      JoinSplit(s[1..], sep);
      var rest := Split(s[1..], sep);
      if s[0] == sep {
        assert ([""] + rest)[1..] == rest;
        assert s == [sep] + s[1..];
      } else {
        var first := [s[0]] + rest[0];
        assert ([first] + rest[1..])[1..] == rest[1..];
        assert s == [s[0]] + s[1..];
      }
    }
  }

  // ---- decimal numbers -----------------------------------------------------------------------

  function Digit(d: nat): (c: char)
    requires d < 10
    ensures '0' <= c <= '9'
  {
    '0' + d as char
  }

  /** `strconv.Itoa` on a natural number. */
  function Itoa(n: nat): (s: string)
    ensures s != "" && forall i | 0 <= i < |s| :: '0' <= s[i] <= '9'
  {
    if n < 10 then [Digit(n)] else Itoa(n / 10) + [Digit(n % 10)]
  }

  function Atoi(s: string): int {
    if s == "" then 0 else Atoi(s[..|s| - 1]) * 10 + (s[|s| - 1] as int - '0' as int)
  }

  lemma {:induction false} AtoiItoa(n: nat)
    ensures Atoi(Itoa(n)) == n
  {
    if n < 10 {
      assert Itoa(n)[..0] == "";
    } else {
      AtoiItoa(n / 10);
      assert Itoa(n)[..|Itoa(n)| - 1] == Itoa(n / 10);
    }
  }

  // ---- lists of strings ----------------------------------------------------------------------

  function Without(list: seq<string>, id: string): seq<string> {
    if list == [] then [] else (if list[0] == id then [] else [list[0]]) + Without(list[1..], id)
  }

  lemma {:induction false} WithoutContents(list: seq<string>, id: string)
    ensures forall x :: x in Without(list, id) <==> x in list && x != id
  {
    if list != [] {
      WithoutContents(list[1..], id);
      assert list == [list[0]] + list[1..];
    }
  }

  lemma {:induction false} WithoutDistinct(ids: seq<string>, id: string)
    requires Distinct(ids)
    ensures Distinct(Without(ids, id))
  {
    if ids != [] {
      WithoutDistinct(ids[1..], id);
      WithoutContents(ids[1..], id);
      assert ids[0] !in ids[1..];
      var rest := Without(ids[1..], id);
      assert forall j | 0 <= j < |rest| :: rest[j] in rest;
    }
  }
}
