/** What several parts of the model share. */
module Common {

  datatype Option<+T> = None | Some(value: T)

  predicate NoDup<T(==)>(q: seq<T>) { forall i, j :: 0 <= i < j < |q| ==> q[i] != q[j] }

  lemma {:induction false} Pigeonhole<T>(a: seq<T>, b: seq<T>)
    requires NoDup(a) && forall x :: x in a ==> x in b
    ensures |a| <= |b|
    decreases |a|
  {
    if a != [] {
      assert a[0] in b;
      var k :| 0 <= k < |b| && b[k] == a[0];
      var c := b[..k] + b[k + 1..];
      forall x | x in a[1..] ensures x in c {
        var i :| 0 <= i < |a[1..]| && a[1..][i] == x;
        assert a[i + 1] == x && x in a && x != a[0];
        var j :| 0 <= j < |b| && b[j] == x;
        assert c[if j < k then j else j - 1] == x;
      }
      forall i, j | 0 <= i < j < |a[1..]| ensures a[1..][i] != a[1..][j] { assert a[i + 1] != a[j + 1]; }
      Pigeonhole(a[1..], c);
    }
  }
}
