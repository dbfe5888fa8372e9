/** The database's ORDER BY over a table's timestamp column.
    A table is seen here as a map from primary key to the column's value;
    rows with equal values are placed by primary key, so every listing is
    one definite sequence. */
module Ordering {

  /** Row `a` sorts no later than row `b`: by value, then by key. */
  predicate NoLater(m: map<nat, int>, a: nat, b: nat)
    requires a in m && b in m
  {
    m[a] < m[b] || (m[a] == m[b] && a <= b)
  }

  /** `k` is the row that an ascending ORDER BY puts first. */
  predicate IsFirst(m: map<nat, int>, k: nat)
  {
    k in m && forall j :: j in m ==> NoLater(m, k, j)
  }

  /** Every non-empty table has a first row. */
  lemma {:induction false} FirstExists(m: map<nat, int>)
    requires m != map[]
    ensures exists k :: IsFirst(m, k)
    decreases m.Keys
  {
    var a :| a in m;
    var rest := m - {a};
    if rest == map[] {
      assert forall j :: j in m ==> j == a || j in rest;
      assert IsFirst(m, a);
    } else {
      FirstExists(rest);
      var b :| IsFirst(rest, b);
      var first := if NoLater(m, a, b) then a else b;
      forall j | j in m ensures NoLater(m, first, j) {
        if j != a {
          assert j in rest && NoLater(rest, b, j);
        }
      }
      assert IsFirst(m, first);
    }
  }

  /** The keys of `m` in ascending order of their values
      (ORDER BY column ASC). */
  function Ascending(m: map<nat, int>): (r: seq<nat>)
    ensures forall k :: k in r <==> k in m
    ensures forall i :: 0 <= i < |r| ==> r[i] in m
    ensures forall i, j :: 0 <= i < j < |r| ==> r[i] != r[j]
    ensures forall i, j :: 0 <= i < j < |r| ==> m[r[i]] <= m[r[j]]
    decreases m.Keys
  {
    if m == map[] then []
    else
      FirstExists(m);
      var k :| IsFirst(m, k);
      [k] + Ascending(m - {k})
  }

  /** The keys of `m` in descending order of their values
      (ORDER BY column DESC). */
  function Descending(m: map<nat, int>): (r: seq<nat>)
    ensures forall k :: k in r <==> k in m
    ensures forall i :: 0 <= i < |r| ==> r[i] in m
    ensures forall i, j :: 0 <= i < j < |r| ==> r[i] != r[j]
    ensures forall i, j :: 0 <= i < j < |r| ==> m[r[i]] >= m[r[j]]
  {
    var negated := map k | k in m :: -m[k];
    var r := Ascending(negated);
    assert forall i, j :: 0 <= i < j < |r| ==> negated[r[i]] <= negated[r[j]];
    r
  }
}
