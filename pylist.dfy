/** Python's `list.insert` and the rotation that repeated inserts before the
    last element produce. */
module PyList {

  /** Where `list.insert(i, x)` puts `x` in a list of length `len`: a negative
      index counts from the end, and indices outside the list are clamped. */
  function InsertPosition(len: nat, i: int): (j: nat)
    ensures j <= len
    ensures 0 <= i <= len ==> j == i
    ensures i < 0 && 0 <= len + i ==> j == len + i
    ensures len + i < 0 ==> j == 0
    ensures len < i ==> j == len
  {
    if i < 0 then (if len + i < 0 then 0 else len + i)
    else if i > len then len
    else i
  }

  /** The list after `s.insert(i, x)`: `x` at the clamped position, the
      elements before it in place, the ones from there on one further. */
  function PyInsert<T>(s: seq<T>, i: int, x: T): (r: seq<T>)
    ensures |r| == |s| + 1
    ensures r[InsertPosition(|s|, i)] == x
    ensures forall k :: 0 <= k < InsertPosition(|s|, i) ==> r[k] == s[k]
    ensures forall k :: InsertPosition(|s|, i) <= k < |s| ==> r[k + 1] == s[k]
  {
    var j := InsertPosition(|s|, i);
    s[..j] + [x] + s[j..]
  }

  /** An insert adds exactly one element, `x`, and keeps everything else. */
  lemma PyInsertAddsOne<T>(s: seq<T>, i: int, x: T)
    ensures multiset(PyInsert(s, i, x)) == multiset(s) + multiset{x}
  {
    var j := InsertPosition(|s|, i);
    assert s == s[..j] + s[j..];
  }

  /** `s` with its first element moved to the end. */
  function RotateLeft<T>(s: seq<T>): (r: seq<T>)
    ensures |r| == |s|
    ensures s != [] ==> r[|s| - 1] == s[0] && r[..|s| - 1] == s[1..]
  {
    if s == [] then [] else s[1..] + [s[0]]
  }

  /** Rotating left keeps every element: the length and the multiset are those
      of the input. */
  lemma RotateLeftPermutes<T>(s: seq<T>)
    ensures |RotateLeft(s)| == |s|
    ensures multiset(RotateLeft(s)) == multiset(s)
  {
    if s != [] {
      assert s == [s[0]] + s[1..];
    }
  }

  /** Element `k` of the rotation is input element `k + 1`, and the first input
      element comes last. */
  lemma RotateLeftAt<T>(s: seq<T>, k: nat)
    requires k < |s|
    ensures |RotateLeft(s)| == |s|
    ensures RotateLeft(s)[k] == s[(k + 1) % |s|]
    ensures k + 1 < |s| ==> RotateLeft(s)[k] == s[k + 1]
    ensures k + 1 == |s| ==> RotateLeft(s)[k] == s[0]
  {
    if k + 1 < |s| {
      assert (k + 1) % |s| == k + 1;
    } else {
      assert (k + 1) % |s| == 0;
    }
  }

  /** Inserting before the last element of a rotated list is the rotation of
      the list with `x` appended: the step of a loop that collects with
      `insert(len(list) - 1, x)`. */
  lemma {:induction false} InsertBeforeLastRotates<T>(s: seq<T>, x: T)
    ensures PyInsert(RotateLeft(s), |RotateLeft(s)| - 1, x) == RotateLeft(s + [x])
  {
    RotateLeftPermutes(s);
    if s != [] {
      assert (s + [x])[1..] == s[1..] + [x];
      assert RotateLeft(s)[..|s| - 1] == s[1..];
    }
  }
}
