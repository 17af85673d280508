/** Small helpers shared by the screens: a nullable value, the quiz item record, and counting
    and filtering by a row of marks. */
module Common {

  /** A value that may be absent (the source's `null`). */
  datatype Option<T> = None | Some(value: T)

  /** The number of `true` entries of a row of marks (`marks.filter(Boolean).length`). */
  function CountTrue(marks: seq<bool>): (n: nat)
    ensures n <= |marks|
    decreases |marks|
  {
    if marks == [] then 0
    else
      var k := |marks| - 1;
      CountTrue(marks[..k]) + (if marks[k] then 1 else 0)
  }

  /** No marks count zero and only a full row counts its length. */
  lemma {:induction false} CountTrueExtremes(marks: seq<bool>)
    ensures CountTrue(marks) == 0 <==> forall i :: 0 <= i < |marks| ==> !marks[i]
    ensures CountTrue(marks) == |marks| <==> forall i :: 0 <= i < |marks| ==> marks[i]
    decreases |marks|
  {
    if marks != [] {
      var k := |marks| - 1;
      CountTrueExtremes(marks[..k]);
      assert forall i :: 0 <= i < k ==> marks[..k][i] == marks[i];
    }
  }

  /** Flipping one mark changes the count by exactly one, in the direction of the flip. */
  lemma {:induction false} CountTrueFlip(marks: seq<bool>, idx: nat)
    requires idx < |marks|
    ensures CountTrue(marks[idx := !marks[idx]]) == CountTrue(marks) + (if marks[idx] then -1 else 1)
    decreases |marks|
  {
    var k := |marks| - 1;
    var flipped := marks[idx := !marks[idx]];
    if idx == k {
      assert flipped[..k] == marks[..k];
    } else {
      assert flipped[..k] == marks[..k][idx := !marks[idx]];
      CountTrueFlip(marks[..k], idx);
    }
  }

  /** One entry of an item list: its name and its (possibly missing) `hasChip` flag. */
  datatype Item = Item(name: string, hasChip: Option<bool>)

  /** JavaScript truthiness of `item.hasChip`: only an explicit `true` counts. */
  predicate HasChip(it: Item) {
    it.hasChip == Some(true)
  }

  /** The positions of the `true` marks, in increasing order. */
  function TrueIndices(marks: seq<bool>): (r: seq<nat>)
    ensures |r| == CountTrue(marks)
    ensures forall k :: 0 <= k < |r| ==> r[k] < |marks| && marks[r[k]]
    ensures forall k, l :: 0 <= k < l < |r| ==> r[k] < r[l]
    ensures forall i :: 0 <= i < |marks| && marks[i] ==> i in r
    decreases |marks|
  {
    if marks == [] then []
    else
      var n := |marks| - 1;
      assert forall i :: 0 <= i < n ==> marks[..n][i] == marks[i];
      TrueIndices(marks[..n]) + (if marks[n] then [n] else [])
  }

  /** The entries of `s` at the given positions. */
  function Pick<T>(s: seq<T>, idx: seq<nat>): (r: seq<T>)
    requires forall k :: 0 <= k < |idx| ==> idx[k] < |s|
    ensures |r| == |idx|
  {
    seq(|idx|, k requires 0 <= k < |idx| => s[idx[k]])
  }

  /** The entries of `s` whose mark is set, in the order of `s`. */
  function Kept<T>(s: seq<T>, marks: seq<bool>): (r: seq<T>)
    requires |marks| == |s|
    ensures |r| == CountTrue(marks)
  {
    Pick(s, TrueIndices(marks))
  }

  /** An element is kept exactly when some marked position holds it. */
  lemma KeptMembers<T>(s: seq<T>, marks: seq<bool>)
    requires |marks| == |s|
    ensures forall i :: 0 <= i < |s| && marks[i] ==> s[i] in Kept(s, marks)
    ensures forall x :: x in Kept(s, marks) ==> exists i :: 0 <= i < |s| && marks[i] && s[i] == x
  {
    var ix := TrueIndices(marks);
    var r := Kept(s, marks);
    forall i | 0 <= i < |s| && marks[i]
      ensures s[i] in r
    {
      var k :| 0 <= k < |ix| && ix[k] == i;
      assert r[k] == s[i];
    }
    forall x | x in r
      ensures exists i :: 0 <= i < |s| && marks[i] && s[i] == x
    {
      var k :| 0 <= k < |r| && r[k] == x;
      assert marks[ix[k]] && s[ix[k]] == x;
    }
  }

  /** Position-wise `a && b`. */
  function AndMarks(a: seq<bool>, b: seq<bool>): (r: seq<bool>)
    requires |a| == |b|
    ensures |r| == |a| && forall i :: 0 <= i < |a| ==> r[i] == (a[i] && b[i])
  {
    seq(|a|, i requires 0 <= i < |a| => a[i] && b[i])
  }

  /** Position-wise `a && !b`. */
  function AndNotMarks(a: seq<bool>, b: seq<bool>): (r: seq<bool>)
    requires |a| == |b|
    ensures |r| == |a| && forall i :: 0 <= i < |a| ==> r[i] == (a[i] && !b[i])
  {
    seq(|a|, i requires 0 <= i < |a| => a[i] && !b[i])
  }

  /** Splitting a row of marks by a second row: the marks set together with `b` plus those set
      without it are all of `a`'s marks. */
  lemma {:induction false} CountTrueSplit(a: seq<bool>, b: seq<bool>)
    requires |a| == |b|
    ensures CountTrue(AndMarks(a, b)) + CountTrue(AndNotMarks(a, b)) == CountTrue(a)
    decreases |a|
  {
    if a != [] {
      var n := |a| - 1;
      CountTrueSplit(a[..n], b[..n]);
      assert AndMarks(a, b)[..n] == AndMarks(a[..n], b[..n]);
      assert AndNotMarks(a, b)[..n] == AndNotMarks(a[..n], b[..n]);
    }
  }

  /** A row in which at most position `j` is marked has at most one mark. */
  lemma {:induction false} CountTrueAtMostOne(marks: seq<bool>, j: nat)
    requires forall i :: 0 <= i < |marks| ==> (marks[i] <==> i == j)
    ensures CountTrue(marks) == if j < |marks| then 1 else 0
    decreases |marks|
  {
    if marks != [] {
      var n := |marks| - 1;
      CountTrueAtMostOne(marks[..n], j);
    }
  }
}
