/**
 * The key order of a java.util.TreeMap<String, _> built with the natural
 * order of String, and the order in which such a map enumerates its keys.
 */
module KeyOrder {

  /**
   * String.compareTo(a, b) < 0: the first differing character decides;
   * when one string is a prefix of the other, the shorter one comes first.
   */
  predicate Less(a: string, b: string)
    ensures Less(a, b) <==> ComparesBelow(a, b)
    decreases |a|
  {
    if |a| == 0 then
      assert |b| > 0 ==> ProperPrefix(a, b);
      |b| > 0
    else if |b| == 0 then false
    else if a[0] != b[0] then
      ComparesBelowAtHead(a, b); a[0] < b[0]
    else
      ComparesBelowShift(a, b); Less(a[1..], b[1..])
  }

  /**
   * compareTo's own description: a and b first differ at an index where a
   * holds the smaller character, or a is a proper prefix of b.
   */
  ghost predicate ComparesBelow(a: string, b: string)
  {
    (exists i :: FirstDifferenceBelow(a, b, i)) || ProperPrefix(a, b)
  }

  /** a and b agree before index i, and there a holds the smaller character. */
  ghost predicate FirstDifferenceBelow(a: string, b: string, i: int)
  {
    0 <= i < |a| && i < |b| && a[..i] == b[..i] && a[i] < b[i]
  }

  ghost predicate ProperPrefix(a: string, b: string)
  {
    |a| < |b| && a == b[..|a|]
  }

  lemma ComparesBelowAtHead(a: string, b: string)
    requires |a| > 0 && |b| > 0 && a[0] != b[0]
    ensures ComparesBelow(a, b) <==> a[0] < b[0]
  {
    if a[0] < b[0] {
      assert FirstDifferenceBelow(a, b, 0);
    }
  }

  /** Past an equal first character, a difference moves one index down. */
  lemma FirstDifferenceShift(a: string, b: string, i: int)
    requires |a| > 0 && |b| > 0 && a[0] == b[0] && i > 0
    ensures FirstDifferenceBelow(a, b, i) <==> FirstDifferenceBelow(a[1..], b[1..], i - 1)
  {
    if 0 < i <= |a| && i <= |b| {
      assert a[..i] == [a[0]] + a[1..][..i - 1];
      assert b[..i] == [b[0]] + b[1..][..i - 1];
    }
  }

  lemma ProperPrefixShift(a: string, b: string)
    requires |a| > 0 && |b| > 0 && a[0] == b[0]
    ensures ProperPrefix(a, b) <==> ProperPrefix(a[1..], b[1..])
  {
    if |a| < |b| {
      assert a == [a[0]] + a[1..];
      assert b[..|a|] == [b[0]] + b[1..][..|a| - 1];
    }
  }

  lemma ComparesBelowShift(a: string, b: string)
    requires |a| > 0 && |b| > 0 && a[0] == b[0]
    ensures ComparesBelow(a, b) <==> ComparesBelow(a[1..], b[1..])
  {
    ProperPrefixShift(a, b);
    if exists i :: FirstDifferenceBelow(a, b, i) {
      var i :| FirstDifferenceBelow(a, b, i);
      FirstDifferenceShift(a, b, i);
    }
    if exists j :: FirstDifferenceBelow(a[1..], b[1..], j) {
      var j :| FirstDifferenceBelow(a[1..], b[1..], j);
      FirstDifferenceShift(a, b, j + 1);
    }
  }

  lemma {:induction false} LessIrreflexive(a: string)
    ensures !Less(a, a)
    decreases |a|
  {
    if |a| > 0 {
      LessIrreflexive(a[1..]);
    }
  }

  lemma {:induction false} LessTransitive(a: string, b: string, c: string)
    requires Less(a, b) && Less(b, c)
    ensures Less(a, c)
    decreases |a|
  {
    if |a| > 0 && a[0] == b[0] && b[0] == c[0] {
      LessTransitive(a[1..], b[1..], c[1..]);
    }
  }

  /** Two different strings are always ordered one way or the other. */
  lemma {:induction false} LessTotal(a: string, b: string)
    requires a != b
    ensures Less(a, b) || Less(b, a)
    decreases |a|
  {
    if |a| > 0 && |b| > 0 && a[0] == b[0] {
      assert a == [a[0]] + a[1..] && b == [b[0]] + b[1..];
      LessTotal(a[1..], b[1..]);
    }
  }

  lemma LessAsymmetric(a: string, b: string)
    requires Less(a, b)
    ensures !Less(b, a)
  {
    if Less(b, a) {
      LessTransitive(a, b, a);
      LessIrreflexive(a);
    }
  }

  /** Every key comes strictly before every later key. */
  ghost predicate StrictlyAscending(ks: seq<string>)
  {
    forall i, j :: 0 <= i < j < |ks| ==> Less(ks[i], ks[j])
  }

  /** The first key of a non-empty key set (TreeMap.firstKey). */
  ghost function Least(keys: set<string>): (k: string)
    requires keys != {}
    ensures k in keys
    ensures forall x :: x in keys && x != k ==> Less(k, x)
    decreases keys
  {
    var x :| x in keys;
    if keys == {x} then x
    else
      var y := Least(keys - {x});
      if Less(x, y) then
        LeastStep(keys - {x}, x, y); x
      else
        LessTotal(x, y); y
  }

  /** A key before the least of the other keys is before all of them. */
  lemma LeastStep(rest: set<string>, x: string, y: string)
    requires y in rest && Less(x, y)
    requires forall z :: z in rest && z != y ==> Less(y, z)
    ensures forall z :: z in rest ==> Less(x, z)
  {
    forall z | z in rest
      ensures Less(x, z)
    {
      if z != y {
        LessTransitive(x, y, z);
      }
    }
  }

  /** The keys of a TreeMap in the order its keySet() iterates them. */
  ghost function SortedKeys(keys: set<string>): (ks: seq<string>)
    ensures |ks| == |keys|
    ensures forall k :: k in ks <==> k in keys
    ensures StrictlyAscending(ks)
    decreases keys
  {
    if keys == {} then []
    else
      var k := Least(keys);
      var rest := SortedKeys(keys - {k});
      AscendingCons(k, rest);
      [k] + rest
  }

  /** A key before every key of an ascending listing may be put in front of it. */
  lemma AscendingCons(k: string, rest: seq<string>)
    requires StrictlyAscending(rest)
    requires forall x :: x in rest ==> Less(k, x)
    ensures StrictlyAscending([k] + rest)
  {
    var ks := [k] + rest;
    forall i, j | 0 <= i < j < |ks|
      ensures Less(ks[i], ks[j])
    {
      assert ks[j] == rest[j - 1];
      if i > 0 {
        assert ks[i] == rest[i - 1];
      }
    }
  }

  /** The first key of an ascending listing of a key set is its least key. */
  lemma AscendingHeadIsLeast(keys: set<string>, ks: seq<string>)
    requires StrictlyAscending(ks)
    requires forall k :: k in ks <==> k in keys
    requires ks != []
    ensures keys != {} && ks[0] == Least(keys)
  {
    assert ks[0] in keys;
    var k := Least(keys);
    if k != ks[0] {
      var j :| 0 <= j < |ks| && ks[j] == k;
      assert Less(ks[0], k);
      LessAsymmetric(ks[0], k);
    }
  }

  /** Dropping the first key of an ascending listing lists the remaining keys. */
  lemma AscendingTail(keys: set<string>, ks: seq<string>)
    requires StrictlyAscending(ks)
    requires forall k :: k in ks <==> k in keys
    requires ks != []
    ensures StrictlyAscending(ks[1..])
    ensures forall x :: x in ks[1..] <==> x in keys - {ks[0]}
  {
    var rest := ks[1..];
    forall x
      ensures x in rest <==> x in keys - {ks[0]}
    {
      if x in rest {
        var j :| 0 <= j < |rest| && rest[j] == x;
        assert ks[j + 1] == x;
        LessIrreflexive(x);
      }
      if x in keys - {ks[0]} {
        var j :| 0 <= j < |ks| && ks[j] == x;
        assert rest[j - 1] == x;
      }
    }
  }

  /**
   * The iteration order is determined by the key set alone: any strictly
   * ascending listing of exactly those keys is SortedKeys, so two maps with
   * the same keys iterate them alike, whatever order they were put in.
   */
  lemma {:induction false} SortedKeysUnique(keys: set<string>, ks: seq<string>)
    requires StrictlyAscending(ks)
    requires forall k :: k in ks <==> k in keys
    ensures ks == SortedKeys(keys)
    decreases |ks|
  {
    if ks == [] {
      assert keys == {};
    } else {
      AscendingHeadIsLeast(keys, ks);
      AscendingTail(keys, ks);
      SortedKeysUnique(keys - {ks[0]}, ks[1..]);
      SortedKeysCons(keys, ks);
    }
  }

  /** A listing that starts with the least key and goes on with SortedKeys of the rest is SortedKeys. */
  lemma SortedKeysCons(keys: set<string>, ks: seq<string>)
    requires keys != {} && ks != []
    requires ks[0] == Least(keys) && ks[1..] == SortedKeys(keys - {ks[0]})
    ensures ks == SortedKeys(keys)
  {
    assert ks == [ks[0]] + ks[1..];
  }

  /** Two keys are iterated in ascending order, whichever was put first. */
  lemma SortedKeysOfTwo(a: string, b: string)
    requires Less(a, b)
    ensures SortedKeys({a, b}) == [a, b]
  {
    LessIrreflexive(a);
    SortedKeysUnique({a, b}, [a, b]);
  }
}
