/** Taking one position out of a sequence. */
module Sequences {
  function Without<T>(items: seq<T>, i: nat): seq<T> {
    if i < |items| then items[..i] + items[i + 1..] else items
  }

  lemma WithoutAt<T>(items: seq<T>, i: nat, j: nat)
    requires i < |items| && j < |items| - 1
    ensures |Without(items, i)| == |items| - 1
    ensures Without(items, i)[j] == if j < i then items[j] else items[j + 1]
  {
  }

  lemma WithoutKeeps<T>(items: seq<T>, i: nat, x: T)
    requires i < |items| && x in items && x != items[i]
    ensures x in Without(items, i)
  {
    var j :| 0 <= j < |items| && items[j] == x;
    WithoutAt(items, i, if j < i then j else j - 1);
  }
}
