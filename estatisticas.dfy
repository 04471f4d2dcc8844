/** The per-status counts of the dashboard endpoints: `sum(1 for r in rows if
    r.status == s)` over a table, seen through the table's status column. */
module Estatisticas {

  /** The keys of the rows whose status is exactly `s`. */
  function ComStatus(status: map<int, string>, s: string): (r: set<int>)
    ensures r <= status.Keys
    ensures forall id | id in status :: id in r <==> status[id] == s
  {
    set id | id in status && status[id] == s
  }

  lemma CardinalidadeSubconjunto(a: set<int>, b: set<int>)
    requires a <= b
    ensures |a| <= |b|
  {
    assert b == a + (b - a);
  }

  /** Four buckets of distinct statuses never count a row twice, so together
      they count at most every row, and every row exactly when each stored
      status is one of the four. */
  lemma GruposSomam(status: map<int, string>, a: string, b: string, c: string, d: string)
    requires a != b && a != c && a != d && b != c && b != d && c != d
    ensures |ComStatus(status, a)| + |ComStatus(status, b)| + |ComStatus(status, c)| + |ComStatus(status, d)|
            <= |status|
    ensures (forall id | id in status :: status[id] == a || status[id] == b || status[id] == c || status[id] == d)
            ==> |ComStatus(status, a)| + |ComStatus(status, b)| + |ComStatus(status, c)| + |ComStatus(status, d)|
                == |status|
  {
    var A, B, C, D := ComStatus(status, a), ComStatus(status, b), ComStatus(status, c), ComStatus(status, d);
    assert |A + B| == |A| + |B| by { assert A * B == {}; }
    assert |A + B + C| == |A + B| + |C| by { assert (A + B) * C == {}; }
    assert |A + B + C + D| == |A + B + C| + |D| by { assert (A + B + C) * D == {}; }
    CardinalidadeSubconjunto(A + B + C + D, status.Keys);
    if forall id | id in status :: status[id] == a || status[id] == b || status[id] == c || status[id] == d {
      assert A + B + C + D == status.Keys;
    }
  }
}
