/** Bytes, and facts about sequences that more than one part of the scheduler uses. */
module Sequences {
  type Byte = x: int | 0 <= x < 256

  predicate Distinct<T(==)>(s: seq<T>) {
    forall i, j | 0 <= i < j < |s| :: s[i] != s[j]
  }

  function MovedToFront<T>(s: seq<T>, k: nat): seq<T>
    requires k < |s|
  {
    [s[k]] + s[..k] + s[k + 1..]
  }

  lemma MovedToFrontAt<T>(s: seq<T>, k: nat, i: nat)
    requires k < |s| && i < |s|
    ensures |MovedToFront(s, k)| == |s|
    ensures MovedToFront(s, k)[i] == s[if i == 0 then k else if i <= k then i - 1 else i]
  {
  }

  lemma MovedToFrontKeeps<T>(s: seq<T>, k: nat)
    requires k < |s| && Distinct(s)
    ensures Distinct(MovedToFront(s, k)) && forall x :: x in MovedToFront(s, k) <==> x in s
  {
    var r := MovedToFront(s, k);
    forall i | 0 <= i < |s| ensures |r| == |s| && r[i] == s[if i == 0 then k else if i <= k then i - 1 else i] {
      MovedToFrontAt(s, k, i);
    }
    hide MovedToFront;
    forall i | 0 <= i < |s| ensures s[i] in r {
      assert s[i] == r[if i == k then 0 else if i < k then i + 1 else i];
    }
  }

  /** The last n elements, or all of them when there are fewer. */
  function Last<T>(n: nat, s: seq<T>): seq<T> {
    if |s| <= n then s else s[|s| - n..]
  }

  lemma LastSnoc<T>(s: seq<T>, tail: seq<T>, x: T)
    requires Last(|tail|, s) == tail
    ensures Last(|tail| + 1, s + [x]) == tail + [x] && Last(|tail|, s + []) == tail
  {
    assert s + [] == s;
  }

  lemma LastAppend<T>(n: nat, a: seq<T>, b: seq<T>)
    ensures Last(n, Last(n, a) + b) == Last(n, a + b)
  {
  }
}
