/** Sums over weight tables and over the aggregate buckets, and the bucket
    merge `d[k] += v` (or `d[k] = v` when `k` is absent). */
module Sums {
  import opened Data

  /** A recipe's weight table: its component keys and relative weights, in
      declaration order. */
  type Table = seq<(string, real)>

  /** Python's `sum(recipe.values())`. */
  function Denominator(t: Table): real {
    if |t| == 0 then 0.0 else t[0].1 + Denominator(t[1..])
  }

  /** Python's `sum(d.values())` for a mapping. */
  ghost function Total(m: map<Name, real>): real
    decreases |m|
  {
    if m == map[] then 0.0
    else
      var k :| k in m;
      m[k] + Total(m - {k})
  }

  /** The value under `k`, or zero when `k` is absent. */
  function Get(m: map<Name, real>, k: Name): real {
    if k in m then m[k] else 0.0
  }

  /** The bucket merge: adds `v` under `k`, creating the bucket at `v`. */
  function Add(m: map<Name, real>, k: Name, v: real): (r: map<Name, real>)
    ensures r.Keys == m.Keys + {k}
    ensures r[k] == Get(m, k) + v
    ensures forall x :: x in m && x != k ==> r[x] == m[x]
  {
    if k in m then m[k := m[k] + v] else m[k := v]
  }

  /** Whichever key the definition of `Total` picks first, removing any one
      key takes off exactly its value. */
  lemma {:induction false} TotalRemove(m: map<Name, real>, k: Name)
    requires k in m
    ensures Total(m) == m[k] + Total(m - {k})
    decreases |m|
  {
    var j :| j in m && Total(m) == m[j] + Total(m - {j});
    if j != k {
      var mj, mk := m - {j}, m - {k};
      assert |mj| < |m|;
      TotalRemove(mj, k);
      TotalRemove(mk, j);
      assert mj - {k} == mk - {j};
    }
  }

  /** Merging `v` into a bucket raises the sum of the buckets by `v`. */
  lemma TotalAdd(m: map<Name, real>, k: Name, v: real)
    ensures Total(Add(m, k, v)) == Total(m) + v
  {
    var r := Add(m, k, v);
    TotalRemove(r, k);
    assert r - {k} == m - {k};
    if k in m {
      TotalRemove(m, k);
    } else {
      assert m - {k} == m;
    }
  }

  /** Computes the sum of the values of a mapping, one key at a time. */
  method SumValues(m: map<Name, real>) returns (s: real)
    ensures s == Total(m)
  {
    s := 0.0;
    var rest := m;
    while rest != map[]
      invariant s + Total(rest) == Total(m)
      decreases |rest|
    {
      var k :| k in rest;
      TotalRemove(rest, k);
      s := s + rest[k];
      rest := rest - {k};
    }
  }
}
