/** `bytesPrefix` of account.go: the key range that an iterator scans to visit
    exactly the keys with a given prefix. */
module BytesPrefix {
  import opened GoBytes

  predicate HasPrefix(key: Bytes, prefix: Bytes) {
    |prefix| <= |key| && key[..|prefix|] == prefix
  }

  /** `begin <= key < limit`, where a nil limit leaves the range open above. */
  predicate InRange(key: Bytes, begin: Bytes, limit: Val) {
    !Less(key, begin) && (limit.Some? ==> Less(key, limit.value))
  }

  method BytesPrefixRange(prefix: Bytes) returns (begin: Bytes, limit: Val)
    ensures forall key: Bytes :: HasPrefix(key, prefix) <==> InRange(key, begin, limit)
    ensures limit.None? <==> forall i :: 0 <= i < |prefix| ==> prefix[i] == 0xff
  {
    limit := None;
    var i := |prefix| - 1;
    while i >= 0
      invariant -1 <= i < |prefix|
      invariant limit.None?
      invariant forall j :: i < j < |prefix| ==> prefix[j] == 0xff
    {
      var c := prefix[i];
      if c < 0xff {
        limit := Some(prefix[..i] + [c + 1]);
        break;
      }
      i := i - 1;
    }
    begin := prefix;
    forall key: Bytes
      ensures HasPrefix(key, prefix) <==> InRange(key, begin, limit)
    {
      if limit.None? {
        RangeAllMax(key, prefix);
      } else {
        RangeExact(key, prefix, i);
      }
    }
  }

  /** With nothing but 0xff bytes in the prefix the lower bound alone is exact. */
  lemma {:induction false} RangeAllMax(key: Bytes, prefix: Bytes)
    requires forall i :: 0 <= i < |prefix| ==> prefix[i] == 0xff
    ensures HasPrefix(key, prefix) <==> !Less(key, prefix)
  {
    if prefix != [] && key != [] && key[0] == 0xff {
      RangeAllMax(key[1..], prefix[1..]);
      PrefixTail(key, prefix);
    }
  }

  lemma PrefixTail(key: Bytes, prefix: Bytes)
    requires prefix != [] && key != [] && key[0] == prefix[0]
    ensures HasPrefix(key, prefix) <==> HasPrefix(key[1..], prefix[1..])
  {
    if |prefix| <= |key| {
      assert key[..|prefix|] == [key[0]] + key[1..][..|prefix| - 1];
      assert prefix == [prefix[0]] + prefix[1..];
    }
  }

  /** Bumping the last byte below 0xff gives the exact upper bound. */
  lemma {:induction false} RangeExact(key: Bytes, prefix: Bytes, i: nat)
    requires i < |prefix| && prefix[i] < 0xff
    requires forall j :: i < j < |prefix| ==> prefix[j] == 0xff
    ensures HasPrefix(key, prefix) <==>
            !Less(key, prefix) && Less(key, prefix[..i] + [prefix[i] + 1])
  {
    var limit := prefix[..i] + [prefix[i] + 1];
    if key == [] {
    } else if i == 0 {
      if key[0] == prefix[0] {
        RangeAllMax(key[1..], prefix[1..]);
        PrefixTail(key, prefix);
      }
    } else if key[0] == prefix[0] {
      RangeExact(key[1..], prefix[1..], i - 1);
      PrefixTail(key, prefix);
      assert limit[1..] == prefix[1..][..i - 1] + [prefix[1..][i - 1] + 1];
    }
  }
}
