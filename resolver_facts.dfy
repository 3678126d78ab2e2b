/** What a visit of the resolver does to the aggregation table and what it
    costs, proved from `Resolver.Resolve`. */
module ResolverFacts {
  import opened Data
  import opened Text
  import opened Sums
  import opened Resolver

  /** The display name a component key is merged under. */
  function DisplayOf(d: Dialect, key: string): Name {
    match Names(d, key)
      case Ok(names) => names.1
      case Err(_) => key
  }

  /** The display names of the components from index `i` on. */
  function DisplaysFrom(d: Dialect, table: Table, i: nat): set<Name>
    requires i <= |table|
    decreases |table| - i
  {
    if i == |table| then {}
    else if Skipped(d, table[i].0) then DisplaysFrom(d, table, i + 1)
    else {DisplayOf(d, table[i].0)} + DisplaysFrom(d, table, i + 1)
  }

  /** The total weight of the components from index `i` on that display as `x`. */
  function DisplayWeight(d: Dialect, table: Table, i: nat, x: Name): real
    requires i <= |table|
    decreases |table| - i
  {
    if i == |table| then 0.0
    else if !Skipped(d, table[i].0) && DisplayOf(d, table[i].0) == x
    then table[i].1 + DisplayWeight(d, table, i + 1, x)
    else DisplayWeight(d, table, i + 1, x)
  }

  /** The total weight of the components from index `i` on that are not skipped. */
  function IncludedWeight(d: Dialect, table: Table, i: nat): real
    requires i <= |table|
    decreases |table| - i
  {
    if i == |table| then 0.0
    else if Skipped(d, table[i].0) then IncludedWeight(d, table, i + 1)
    else table[i].1 + IncludedWeight(d, table, i + 1)
  }

  /** Entry `x` is the same in both tables (present in both or in neither). */
  ghost predicate Unchanged(t: Aggregates, t': Aggregates, x: Name) {
    (x in t <==> x in t') && (x in t ==> t'[x] == t[x])
  }

  /** The derived-field invariant: the total field equals the sum of the buckets. */
  ghost predicate Consistent(d: Dialect, e: Entry) {
    e.buckets.Some? && d.totalKey in e.fields && e.fields[d.totalKey] == Total(e.buckets.value)
  }

  ghost predicate AllConsistent(d: Dialect, t: Aggregates) {
    forall x :: x in t ==> Consistent(d, t[x])
  }

  lemma ShareSum(q: real, a: real, b: real, sum: real, denominator: real)
    requires denominator != 0.0 && sum == a + b
    ensures Share(q, sum, denominator) == Share(q, a, denominator) + Share(q, b, denominator)
  {
    calc {
      Share(q, sum, denominator);
      q * (a + b) / denominator;
      (q * a + q * b) / denominator;
      q * a / denominator + q * b / denominator;
    }
  }

  /** A successful visit of a recipe: its components resolved from the
      entry `Start` gives, and `Finish` applied. */
  lemma VisitOk(d: Dialect, catalog: map<Name, Json>, store: map<Name, Json>,
                rank: map<Name, nat>, name: Name, q: real, t: Aggregates)
    requires Ranked(d, store, rank)
    requires name !in catalog && Resolve(d, catalog, store, rank, name, q, t).Ok?
    ensures name in store && AsTable(store[name]).Some?
    ensures var table := AsTable(store[name]).value;
      var start := Start(d, store, name, t);
      var r := Resolve(d, catalog, store, rank, name, q, t).value;
      && Components(d, catalog, store, rank, name, table, 0, q, start).Ok?
      && var v := Components(d, catalog, store, rank, name, table, 0, q, start).value;
      && v.table[name].buckets.Some?
      && r == Visit(v.cost, v.children, v.table[name := v.table[name].(fields := v.table[name].fields[d.totalKey := Total(v.table[name].buckets.value)])])
  {
  }

  /** The visit a recipe's components start from. */
  function Start(d: Dialect, store: map<Name, Json>, name: Name, t: Aggregates): (v: Visit)
    requires name in store
    ensures name in v.table && v.cost == 0.0 && v.children == map[]
  {
    Visit(0.0, map[], if name in t then t else t[name := NewEntry(d, store[name])])
  }

  /** A successful step of a component that is not skipped: the merge, then
      the component resolved for its share. */
  lemma StepOk(d: Dialect, catalog: map<Name, Json>, store: map<Name, Json>,
               rank: map<Name, nat>, name: Name, table: Table, i: nat, q: real, acc: Visit)
    requires Visiting(d, store, rank, name, table, i, acc)
    requires i < |table| && !Skipped(d, table[i].0)
    requires Step(d, catalog, store, rank, name, table, i, q, acc).Ok?
    ensures Names(d, table[i].0).Ok? && Denominator(table) != 0.0 && acc.table[name].buckets.Some?
    ensures Rank(rank, Names(d, table[i].0).value.0) < Rank(rank, name)
    ensures var (source, display) := Names(d, table[i].0).value;
      var share := Share(q, table[i].1, Denominator(table));
      var sub := Resolve(d, catalog, store, rank, source, share, Merge(acc.table, name, display, share));
      && sub.Ok?
      && Step(d, catalog, store, rank, name, table, i, q, acc).value
         == Visit(acc.cost + sub.value.cost, acc.children[display := share], sub.value.table)
  {
    var (source, display) := Names(d, table[i].0).value;
    ChildRanked(d, store, rank, name, table, i, source);
  }

  /** Without buckets, only a recipe whose components are all skipped gets
      through its components, and its entry still has none. */
  lemma {:induction false} ComponentsNoBuckets(d: Dialect, catalog: map<Name, Json>, store: map<Name, Json>,
                                               rank: map<Name, nat>, name: Name, table: Table, i: nat, q: real,
                                               acc: Visit)
    requires Visiting(d, store, rank, name, table, i, acc)
    requires acc.table[name].buckets.None?
    requires Components(d, catalog, store, rank, name, table, i, q, acc).Ok?
    ensures Components(d, catalog, store, rank, name, table, i, q, acc).value.table[name].buckets.None?
    decreases |table| - i
  {
    if i < |table| {
      assert Skipped(d, table[i].0);
      ComponentsNoBuckets(d, catalog, store, rank, name, table, i + 1, q, acc);
    }
  }

  /** A display name of a component from `i` on is among `DisplaysFrom(i)`. */
  lemma {:induction false} InDisplays(d: Dialect, table: Table, i: nat, j: nat)
    requires i <= j < |table| && !Skipped(d, table[j].0)
    ensures DisplayOf(d, table[j].0) in DisplaysFrom(d, table, i)
    decreases j - i
  {
    if i < j {
      InDisplays(d, table, i + 1, j);
    }
  }

  lemma Accumulate(after: real, middle: real, before: real, first: real, rest: real, whole: real)
    requires after == middle + rest && middle == before + first && whole == first + rest
    ensures after == before + whole
  {
  }

  /** Entries whose rank is above the visited name are left alone: a visit
      only touches recipes reachable from it. */
  lemma {:induction false} ResolveFrame(d: Dialect, catalog: map<Name, Json>, store: map<Name, Json>,
                                        rank: map<Name, nat>, name: Name, q: real, t: Aggregates)
    requires Ranked(d, store, rank)
    requires Resolve(d, catalog, store, rank, name, q, t).Ok?
    ensures forall x :: Rank(rank, name) < Rank(rank, x) ==>
      Unchanged(t, Resolve(d, catalog, store, rank, name, q, t).value.table, x)
    decreases Rank(rank, name), 1, 0
  {
    if name !in catalog {
      var table := AsTable(store[name]).value;
      VisitOk(d, catalog, store, rank, name, q, t);
      ComponentsFrame(d, catalog, store, rank, name, table, 0, q, Start(d, store, name, t));
    }
  }

  lemma {:induction false} ComponentsFrame(d: Dialect, catalog: map<Name, Json>, store: map<Name, Json>,
                                           rank: map<Name, nat>, name: Name, table: Table, i: nat, q: real,
                                           acc: Visit)
    requires Visiting(d, store, rank, name, table, i, acc)
    requires Components(d, catalog, store, rank, name, table, i, q, acc).Ok?
    ensures forall x :: x != name && Rank(rank, name) <= Rank(rank, x) ==>
      Unchanged(acc.table, Components(d, catalog, store, rank, name, table, i, q, acc).value.table, x)
    decreases Rank(rank, name), 0, |table| - i
  {
    if i < |table| {
      var next := Step(d, catalog, store, rank, name, table, i, q, acc).value;
      if !Skipped(d, table[i].0) {
        var (source, display) := Names(d, table[i].0).value;
        var share := Share(q, table[i].1, Denominator(table));
        var t2 := Merge(acc.table, name, display, share);
        ChildRanked(d, store, rank, name, table, i, source);
        ResolveFrame(d, catalog, store, rank, source, share, t2);
      }
      ComponentsFrame(d, catalog, store, rank, name, table, i + 1, q, next);
    }
  }

  /** What a successful step of a component that is not skipped leaves in
      the recipe's own entry: the share merged into its display bucket. */
  lemma StepEntry(d: Dialect, catalog: map<Name, Json>, store: map<Name, Json>,
                  rank: map<Name, nat>, name: Name, table: Table, i: nat, q: real, acc: Visit)
    requires Visiting(d, store, rank, name, table, i, acc)
    requires i < |table| && !Skipped(d, table[i].0)
    requires Step(d, catalog, store, rank, name, table, i, q, acc).Ok?
    ensures Denominator(table) != 0.0 && acc.table[name].buckets.Some?
    ensures Step(d, catalog, store, rank, name, table, i, q, acc).value.table[name]
         == acc.table[name].(buckets := Some(Add(acc.table[name].buckets.value, DisplayOf(d, table[i].0),
                                                 Share(q, table[i].1, Denominator(table)))))
  {
    StepOk(d, catalog, store, rank, name, table, i, q, acc);
    var (source, display) := Names(d, table[i].0).value;
    var share := Share(q, table[i].1, Denominator(table));
    ResolveFrame(d, catalog, store, rank, source, share, Merge(acc.table, name, display, share));
  }

  /** One visit of recipe `name`, continued from component `i`, leaves the
      recipe's fields alone and keeps its buckets. */
  lemma {:induction false} ComponentsFields(d: Dialect, catalog: map<Name, Json>, store: map<Name, Json>,
                                            rank: map<Name, nat>, name: Name, table: Table, i: nat, q: real,
                                            acc: Visit)
    requires Visiting(d, store, rank, name, table, i, acc)
    requires acc.table[name].buckets.Some?
    requires Components(d, catalog, store, rank, name, table, i, q, acc).Ok?
    ensures Components(d, catalog, store, rank, name, table, i, q, acc).value.table[name].buckets.Some?
    ensures Components(d, catalog, store, rank, name, table, i, q, acc).value.table[name].fields == acc.table[name].fields
    decreases |table| - i
  {
    if i < |table| {
      Advance(d, catalog, store, rank, name, table, i, q, acc);
      var next := Step(d, catalog, store, rank, name, table, i, q, acc).value;
      if !Skipped(d, table[i].0) {
        StepEntry(d, catalog, store, rank, name, table, i, q, acc);
      }
      ComponentsFields(d, catalog, store, rank, name, table, i + 1, q, next);
    }
  }

  /** The recipe's buckets gain the display names of its components. */
  lemma {:induction false} ComponentsBucketKeys(d: Dialect, catalog: map<Name, Json>, store: map<Name, Json>,
                                                rank: map<Name, nat>, name: Name, table: Table, i: nat, q: real,
                                                acc: Visit, b: map<Name, real>)
    requires Visiting(d, store, rank, name, table, i, acc) && acc.table[name].buckets == Some(b)
    requires Components(d, catalog, store, rank, name, table, i, q, acc).Ok?
    ensures var e := Components(d, catalog, store, rank, name, table, i, q, acc).value.table[name];
      e.buckets.Some? && e.buckets.value.Keys == b.Keys + DisplaysFrom(d, table, i)
    decreases |table| - i
  {
    if i < |table| {
      Advance(d, catalog, store, rank, name, table, i, q, acc);
      var next := Step(d, catalog, store, rank, name, table, i, q, acc).value;
      if Skipped(d, table[i].0) {
        ComponentsBucketKeys(d, catalog, store, rank, name, table, i + 1, q, next, b);
      } else {
        StepEntry(d, catalog, store, rank, name, table, i, q, acc);
        var b2 := Add(b, DisplayOf(d, table[i].0), Share(q, table[i].1, Denominator(table)));
        ComponentsBucketKeys(d, catalog, store, rank, name, table, i + 1, q, next, b2);
      }
    }
  }

  /** With a zero weight sum, a recipe whose components get through has no
      component that is not skipped: nothing changes. */
  lemma {:induction false} ComponentsZero(d: Dialect, catalog: map<Name, Json>, store: map<Name, Json>,
                                          rank: map<Name, nat>, name: Name, table: Table, i: nat, q: real,
                                          acc: Visit)
    requires Visiting(d, store, rank, name, table, i, acc)
    requires Denominator(table) == 0.0
    requires Components(d, catalog, store, rank, name, table, i, q, acc).Ok?
    ensures Components(d, catalog, store, rank, name, table, i, q, acc) == Ok(acc)
    ensures DisplaysFrom(d, table, i) == {}
    decreases |table| - i
  {
    if i < |table| {
      Advance(d, catalog, store, rank, name, table, i, q, acc);
      assert Skipped(d, table[i].0);
      ComponentsZero(d, catalog, store, rank, name, table, i + 1, q, acc);
    }
  }

  /** The buckets' sum grows by the share of the included weights. */
  lemma {:induction false} ComponentsTotal(d: Dialect, catalog: map<Name, Json>, store: map<Name, Json>,
                                           rank: map<Name, nat>, name: Name, table: Table, i: nat, q: real,
                                           acc: Visit, b: map<Name, real>)
    requires Visiting(d, store, rank, name, table, i, acc)
    requires Denominator(table) != 0.0 && acc.table[name].buckets == Some(b)
    requires Components(d, catalog, store, rank, name, table, i, q, acc).Ok?
    ensures var e := Components(d, catalog, store, rank, name, table, i, q, acc).value.table[name];
      e.buckets.Some? && Total(e.buckets.value) == Total(b) + Share(q, IncludedWeight(d, table, i), Denominator(table))
    decreases |table| - i
  {
    var denominator := Denominator(table);
    if i == |table| {
      assert Share(q, 0.0, denominator) == 0.0;
    } else {
      Advance(d, catalog, store, rank, name, table, i, q, acc);
      var next := Step(d, catalog, store, rank, name, table, i, q, acc).value;
      if Skipped(d, table[i].0) {
        ComponentsTotal(d, catalog, store, rank, name, table, i + 1, q, next, b);
      } else {
        StepEntry(d, catalog, store, rank, name, table, i, q, acc);
        var share := Share(q, table[i].1, denominator);
        var b2 := Add(b, DisplayOf(d, table[i].0), share);
        ComponentsTotal(d, catalog, store, rank, name, table, i + 1, q, next, b2);
        TotalAdd(b, DisplayOf(d, table[i].0), share);
        ShareSum(q, table[i].1, IncludedWeight(d, table, i + 1), IncludedWeight(d, table, i), denominator);
        var e := Components(d, catalog, store, rank, name, table, i, q, acc).value.table[name].buckets.value;
        Accumulate(Total(e), Total(b2), Total(b), share, Share(q, IncludedWeight(d, table, i + 1), denominator),
                   Share(q, IncludedWeight(d, table, i), denominator));
      }
    }
  }

  /** The bucket of display name `x` grows by the share of the weights of the
      components displayed as `x`. */
  lemma {:induction false} ComponentsBucket(d: Dialect, catalog: map<Name, Json>, store: map<Name, Json>,
                                            rank: map<Name, nat>, name: Name, table: Table, i: nat, q: real,
                                            acc: Visit, b: map<Name, real>, x: Name)
    requires Visiting(d, store, rank, name, table, i, acc)
    requires Denominator(table) != 0.0 && acc.table[name].buckets == Some(b)
    requires Components(d, catalog, store, rank, name, table, i, q, acc).Ok?
    ensures var e := Components(d, catalog, store, rank, name, table, i, q, acc).value.table[name];
      e.buckets.Some? && Get(e.buckets.value, x) == Get(b, x) + Share(q, DisplayWeight(d, table, i, x), Denominator(table))
    decreases |table| - i
  {
    var denominator := Denominator(table);
    if i == |table| {
      assert Share(q, 0.0, denominator) == 0.0;
    } else {
      Advance(d, catalog, store, rank, name, table, i, q, acc);
      var next := Step(d, catalog, store, rank, name, table, i, q, acc).value;
      if Skipped(d, table[i].0) {
        ComponentsBucket(d, catalog, store, rank, name, table, i + 1, q, next, b, x);
      } else {
        StepEntry(d, catalog, store, rank, name, table, i, q, acc);
        var display := DisplayOf(d, table[i].0);
        var share := Share(q, table[i].1, denominator);
        var b2 := Add(b, display, share);
        ComponentsBucket(d, catalog, store, rank, name, table, i + 1, q, next, b2, x);
        var e := Components(d, catalog, store, rank, name, table, i, q, acc).value.table[name].buckets.value;
        var rest := Share(q, DisplayWeight(d, table, i + 1, x), denominator);
        if x == display {
          ShareSum(q, table[i].1, DisplayWeight(d, table, i + 1, x), DisplayWeight(d, table, i, x), denominator);
          Accumulate(Get(e, x), Get(b2, x), Get(b, x), share, rest, Share(q, DisplayWeight(d, table, i, x), denominator));
        } else {
          Accumulate(Get(e, x), Get(b2, x), Get(b, x), 0.0, rest, Share(q, DisplayWeight(d, table, i, x), denominator));
        }
      }
    }
  }

  /** The entry a recipe's visit starts from: the existing entry if the
      recipe was seen before, the fresh one of `NewEntry` otherwise. */
  function Before(d: Dialect, store: map<Name, Json>, name: Name, t: Aggregates): Entry
    requires name in store
  {
    if name in t then t[name] else NewEntry(d, store[name])
  }

  /** The buckets and fields of the visited recipe after a successful visit,
      in terms of its entry before. */
  lemma VisitBuckets(d: Dialect, catalog: map<Name, Json>, store: map<Name, Json>,
                     rank: map<Name, nat>, name: Name, q: real, t: Aggregates)
    requires Ranked(d, store, rank)
    requires name !in catalog && name in store && AsTable(store[name]).Some?
    requires Resolve(d, catalog, store, rank, name, q, t).Ok?
    ensures var table := AsTable(store[name]).value;
      var before := Before(d, store, name, t);
      var e := Resolve(d, catalog, store, rank, name, q, t).value.table[name];
      && before.buckets.Some? && e.buckets.Some?
      && e.buckets.value.Keys == before.buckets.value.Keys + DisplaysFrom(d, table, 0)
      && e.fields == before.fields[d.totalKey := Total(e.buckets.value)]
      && (Denominator(table) == 0.0 ==> e.buckets == before.buckets)
      && (Denominator(table) != 0.0 ==>
            && Total(e.buckets.value) == Total(before.buckets.value) + Share(q, IncludedWeight(d, table, 0), Denominator(table))
            && forall x :: Get(e.buckets.value, x) == Get(before.buckets.value, x) + Share(q, DisplayWeight(d, table, 0, x), Denominator(table)))
  {
    var table := AsTable(store[name]).value;
    var start := Start(d, store, name, t);
    VisitOk(d, catalog, store, rank, name, q, t);
    if start.table[name].buckets.None? {
      ComponentsNoBuckets(d, catalog, store, rank, name, table, 0, q, start);
    }
    var b := start.table[name].buckets.value;
    ComponentsFields(d, catalog, store, rank, name, table, 0, q, start);
    ComponentsBucketKeys(d, catalog, store, rank, name, table, 0, q, start, b);
    if Denominator(table) == 0.0 {
      ComponentsZero(d, catalog, store, rank, name, table, 0, q, start);
    } else {
      ComponentsTotal(d, catalog, store, rank, name, table, 0, q, start, b);
      forall x
        ensures Get(Components(d, catalog, store, rank, name, table, 0, q, start).value.table[name].buckets.value, x)
             == Get(b, x) + Share(q, DisplayWeight(d, table, 0, x), Denominator(table))
      {
        ComponentsBucket(d, catalog, store, rank, name, table, 0, q, start, b, x);
      }
    }
  }

  lemma {:induction false} IncludedAll(d: Dialect, table: Table, i: nat)
    requires i <= |table| && !d.skipDash
    ensures IncludedWeight(d, table, i) == Denominator(table[i..])
    decreases |table| - i
  {
    if i < |table| {
      IncludedAll(d, table, i + 1);
      assert table[i..][1..] == table[i + 1..];
    }
  }

  /** Without skipped keys, the allocations of one visit add up to the
      visit's quantity: the recipe's buckets grow by exactly `q`. */
  lemma VisitAllocatesQuantity(d: Dialect, catalog: map<Name, Json>, store: map<Name, Json>,
                               rank: map<Name, nat>, name: Name, q: real, t: Aggregates)
    requires Ranked(d, store, rank) && !d.skipDash
    requires name !in catalog && name in store && AsTable(store[name]).Some?
    requires Denominator(AsTable(store[name]).value) != 0.0
    requires Resolve(d, catalog, store, rank, name, q, t).Ok?
    ensures var before := Before(d, store, name, t);
      var e := Resolve(d, catalog, store, rank, name, q, t).value.table[name];
      before.buckets.Some? && e.buckets.Some? && Total(e.buckets.value) == Total(before.buckets.value) + q
  {
    var table := AsTable(store[name]).value;
    VisitBuckets(d, catalog, store, rank, name, q, t);
    IncludedAll(d, table, 0);
    assert table[0..] == table;
    assert Share(q, Denominator(table), Denominator(table)) == q;
  }

  /** Every entry a visit changes ends up consistent; the others are unchanged. */
  lemma {:induction false} ResolveConsistent(d: Dialect, catalog: map<Name, Json>, store: map<Name, Json>,
                                             rank: map<Name, nat>, name: Name, q: real, t: Aggregates)
    requires Ranked(d, store, rank)
    requires Resolve(d, catalog, store, rank, name, q, t).Ok?
    ensures var t' := Resolve(d, catalog, store, rank, name, q, t).value.table;
      forall x :: x in t' ==> (x in t && t'[x] == t[x]) || Consistent(d, t'[x])
    decreases Rank(rank, name), 1, 0
  {
    if name !in catalog {
      VisitOk(d, catalog, store, rank, name, q, t);
      var table := AsTable(store[name]).value;
      ComponentsConsistent(d, catalog, store, rank, name, table, 0, q, Start(d, store, name, t));
    }
  }

  lemma {:induction false} ComponentsConsistent(d: Dialect, catalog: map<Name, Json>, store: map<Name, Json>,
                                                rank: map<Name, nat>, name: Name, table: Table, i: nat, q: real,
                                                acc: Visit)
    requires Visiting(d, store, rank, name, table, i, acc)
    requires Components(d, catalog, store, rank, name, table, i, q, acc).Ok?
    ensures var t' := Components(d, catalog, store, rank, name, table, i, q, acc).value.table;
      forall x :: x in t' ==> x == name || (x in acc.table && t'[x] == acc.table[x]) || Consistent(d, t'[x])
    decreases Rank(rank, name), 0, |table| - i
  {
    if i < |table| {
      Advance(d, catalog, store, rank, name, table, i, q, acc);
      var next := Step(d, catalog, store, rank, name, table, i, q, acc).value;
      if !Skipped(d, table[i].0) {
        StepOk(d, catalog, store, rank, name, table, i, q, acc);
        var (source, display) := Names(d, table[i].0).value;
        var share := Share(q, table[i].1, Denominator(table));
        ResolveConsistent(d, catalog, store, rank, source, share, Merge(acc.table, name, display, share));
      }
      ComponentsConsistent(d, catalog, store, rank, name, table, i + 1, q, next);
    }
  }

  /** A table whose every entry is consistent stays so after a visit. */
  lemma StaysConsistent(d: Dialect, catalog: map<Name, Json>, store: map<Name, Json>,
                        rank: map<Name, nat>, name: Name, q: real, t: Aggregates)
    requires Ranked(d, store, rank) && AllConsistent(d, t)
    requires Resolve(d, catalog, store, rank, name, q, t).Ok?
    ensures AllConsistent(d, Resolve(d, catalog, store, rank, name, q, t).value.table)
  {
    ResolveConsistent(d, catalog, store, rank, name, q, t);
  }

  /** Component `j` is not skipped and no later component displays as it does. */
  ghost predicate LastOfDisplay(d: Dialect, table: Table, j: nat)
    requires j < |table|
  {
    && !Skipped(d, table[j].0)
    && forall k :: j < k < |table| && !Skipped(d, table[k].0) ==> DisplayOf(d, table[k].0) != DisplayOf(d, table[j].0)
  }

  /** The direct children returned by a visit gain one key per display name. */
  lemma {:induction false} ChildrenKeys(d: Dialect, catalog: map<Name, Json>, store: map<Name, Json>,
                                        rank: map<Name, nat>, name: Name, table: Table, i: nat, q: real,
                                        acc: Visit)
    requires Visiting(d, store, rank, name, table, i, acc)
    requires Components(d, catalog, store, rank, name, table, i, q, acc).Ok?
    ensures Components(d, catalog, store, rank, name, table, i, q, acc).value.children.Keys
         == acc.children.Keys + DisplaysFrom(d, table, i)
    decreases |table| - i
  {
    if i < |table| {
      Advance(d, catalog, store, rank, name, table, i, q, acc);
      var next := Step(d, catalog, store, rank, name, table, i, q, acc).value;
      ChildrenKeys(d, catalog, store, rank, name, table, i + 1, q, next);
      if !Skipped(d, table[i].0) {
        StepOk(d, catalog, store, rank, name, table, i, q, acc);
      }
    }
  }

  /** A child no later component displays as keeps its quantity. */
  lemma {:induction false} ChildKept(d: Dialect, catalog: map<Name, Json>, store: map<Name, Json>,
                                     rank: map<Name, nat>, name: Name, table: Table, i: nat, q: real,
                                     acc: Visit, x: Name)
    requires Visiting(d, store, rank, name, table, i, acc)
    requires Components(d, catalog, store, rank, name, table, i, q, acc).Ok?
    requires x in acc.children && x !in DisplaysFrom(d, table, i)
    ensures x in Components(d, catalog, store, rank, name, table, i, q, acc).value.children
    ensures Components(d, catalog, store, rank, name, table, i, q, acc).value.children[x] == acc.children[x]
    decreases |table| - i
  {
    if i < |table| {
      Advance(d, catalog, store, rank, name, table, i, q, acc);
      var next := Step(d, catalog, store, rank, name, table, i, q, acc).value;
      if !Skipped(d, table[i].0) {
        StepOk(d, catalog, store, rank, name, table, i, q, acc);
      }
      ChildKept(d, catalog, store, rank, name, table, i + 1, q, next, x);
    }
  }

  /** The child a component displays as holds that component's share when no
      later component displays the same way: the last write wins. */
  lemma {:induction false} ChildOfLast(d: Dialect, catalog: map<Name, Json>, store: map<Name, Json>,
                                       rank: map<Name, nat>, name: Name, table: Table, i: nat, q: real,
                                       acc: Visit, j: nat)
    requires Visiting(d, store, rank, name, table, i, acc)
    requires i <= j < |table| && LastOfDisplay(d, table, j)
    requires Components(d, catalog, store, rank, name, table, i, q, acc).Ok?
    ensures Denominator(table) != 0.0
    ensures DisplayOf(d, table[j].0) in Components(d, catalog, store, rank, name, table, i, q, acc).value.children
    ensures Components(d, catalog, store, rank, name, table, i, q, acc).value.children[DisplayOf(d, table[j].0)]
         == Share(q, table[j].1, Denominator(table))
    decreases |table| - i
  {
    Advance(d, catalog, store, rank, name, table, i, q, acc);
    var next := Step(d, catalog, store, rank, name, table, i, q, acc).value;
    if i < j {
      ChildOfLast(d, catalog, store, rank, name, table, i + 1, q, next, j);
    } else {
      StepOk(d, catalog, store, rank, name, table, i, q, acc);
      LastNotLater(d, table, i);
      ChildKept(d, catalog, store, rank, name, table, i + 1, q, next, DisplayOf(d, table[i].0));
    }
  }

  lemma LastNotLater(d: Dialect, table: Table, i: nat)
    requires i < |table| && LastOfDisplay(d, table, i)
    ensures DisplayOf(d, table[i].0) !in DisplaysFrom(d, table, i + 1)
  {
    if DisplayOf(d, table[i].0) in DisplaysFrom(d, table, i + 1) {
      var k := DisplayAt(d, table, i + 1, DisplayOf(d, table[i].0));
    }
  }

  /** A display name among `DisplaysFrom(i)` belongs to a component from `i` on. */
  lemma {:induction false} DisplayAt(d: Dialect, table: Table, i: nat, x: Name) returns (k: nat)
    requires i <= |table| && x in DisplaysFrom(d, table, i)
    ensures i <= k < |table| && !Skipped(d, table[k].0) && DisplayOf(d, table[k].0) == x
    decreases |table| - i
  {
    if !Skipped(d, table[i].0) && DisplayOf(d, table[i].0) == x {
      k := i;
    } else {
      k := DisplayAt(d, table, i + 1, x);
    }
  }

  /** The direct children a successful visit of recipe `name` returns. */
  lemma VisitChildren(d: Dialect, catalog: map<Name, Json>, store: map<Name, Json>,
                      rank: map<Name, nat>, name: Name, q: real, t: Aggregates)
    requires Ranked(d, store, rank)
    requires name !in catalog && name in store && AsTable(store[name]).Some?
    requires Resolve(d, catalog, store, rank, name, q, t).Ok?
    ensures var table := AsTable(store[name]).value;
      var c := Resolve(d, catalog, store, rank, name, q, t).value.children;
      && c.Keys == DisplaysFrom(d, table, 0)
      && forall j :: 0 <= j < |table| && LastOfDisplay(d, table, j) ==>
           && Denominator(table) != 0.0 && DisplayOf(d, table[j].0) in c
           && c[DisplayOf(d, table[j].0)] == Share(q, table[j].1, Denominator(table))
  {
    VisitOk(d, catalog, store, rank, name, q, t);
    var table := AsTable(store[name]).value;
    var start := Start(d, store, name, t);
    ChildrenKeys(d, catalog, store, rank, name, table, 0, q, start);
    forall j | 0 <= j < |table| && LastOfDisplay(d, table, j)
      ensures var c := Components(d, catalog, store, rank, name, table, 0, q, start).value.children;
        && Denominator(table) != 0.0 && DisplayOf(d, table[j].0) in c
        && c[DisplayOf(d, table[j].0)] == Share(q, table[j].1, Denominator(table))
    {
      ChildOfLast(d, catalog, store, rank, name, table, 0, q, start, j);
    }
  }

  /** The reference cost of resolving `name` for quantity `q`, without the
      aggregation table: a base ingredient's price times `q`, or the sum of
      the costs of a recipe's included components for their shares. Names
      that do not resolve are given 0; only names that do are used. */
  ghost function CostOf(d: Dialect, catalog: map<Name, Json>, store: map<Name, Json>,
                        rank: map<Name, nat>, name: Name, q: real): real
    requires Ranked(d, store, rank)
    decreases Rank(rank, name), 1
  {
    if name in catalog then
      match NumberAt(catalog[name], name, d.priceField)
        case Ok(price) => price * q
        case Err(_) => 0.0
    else if name in store && AsTable(store[name]).Some? then
      CostsFrom(d, catalog, store, rank, name, AsTable(store[name]).value, 0, q)
    else 0.0
  }

  /** The sum of the costs of the included components from index `i` on. */
  ghost function CostsFrom(d: Dialect, catalog: map<Name, Json>, store: map<Name, Json>,
                           rank: map<Name, nat>, name: Name, table: Table, i: nat, q: real): real
    requires Ranked(d, store, rank)
    requires name in store && AsTable(store[name]) == Some(table) && i <= |table|
    decreases Rank(rank, name), 0, |table| - i
  {
    if i == |table| || Denominator(table) == 0.0 then 0.0
    else match SourceOf(d, table[i].0)
      case None => CostsFrom(d, catalog, store, rank, name, table, i + 1, q)
      case Some(source) =>
        ChildRanked(d, store, rank, name, table, i, source);
        CostOf(d, catalog, store, rank, source, Share(q, table[i].1, Denominator(table)))
          + CostsFrom(d, catalog, store, rank, name, table, i + 1, q)
  }

  /** The cost of a successful visit is the reference cost: it does not
      depend on what the aggregation table held before. */
  lemma {:induction false} ResolveCost(d: Dialect, catalog: map<Name, Json>, store: map<Name, Json>,
                                       rank: map<Name, nat>, name: Name, q: real, t: Aggregates)
    requires Ranked(d, store, rank)
    requires Resolve(d, catalog, store, rank, name, q, t).Ok?
    ensures Resolve(d, catalog, store, rank, name, q, t).value.cost == CostOf(d, catalog, store, rank, name, q)
    decreases Rank(rank, name), 1, 0
  {
    if name !in catalog {
      VisitOk(d, catalog, store, rank, name, q, t);
      var table := AsTable(store[name]).value;
      ComponentsCost(d, catalog, store, rank, name, table, 0, q, Start(d, store, name, t));
    }
  }

  lemma {:induction false} ComponentsCost(d: Dialect, catalog: map<Name, Json>, store: map<Name, Json>,
                                          rank: map<Name, nat>, name: Name, table: Table, i: nat, q: real,
                                          acc: Visit)
    requires Visiting(d, store, rank, name, table, i, acc)
    requires Components(d, catalog, store, rank, name, table, i, q, acc).Ok?
    ensures Components(d, catalog, store, rank, name, table, i, q, acc).value.cost
         == acc.cost + CostsFrom(d, catalog, store, rank, name, table, i, q)
    decreases Rank(rank, name), 0, |table| - i
  {
    if i < |table| {
      Advance(d, catalog, store, rank, name, table, i, q, acc);
      var next := Step(d, catalog, store, rank, name, table, i, q, acc).value;
      ComponentsCost(d, catalog, store, rank, name, table, i + 1, q, next);
      if !Skipped(d, table[i].0) {
        StepOk(d, catalog, store, rank, name, table, i, q, acc);
        var (source, display) := Names(d, table[i].0).value;
        assert SourceOf(d, table[i].0) == Some(source);
        var share := Share(q, table[i].1, Denominator(table));
        ResolveCost(d, catalog, store, rank, source, share, Merge(acc.table, name, display, share));
      } else {
        assert SourceOf(d, table[i].0) == None;
      }
    }
  }

  lemma ShareAdd(q1: real, q2: real, sum: real, w: real, denominator: real)
    requires denominator != 0.0 && sum == q1 + q2
    ensures Share(sum, w, denominator) == Share(q1, w, denominator) + Share(q2, w, denominator)
  {
    calc {
      Share(sum, w, denominator);
      (q1 + q2) * w / denominator;
      (q1 * w + q2 * w) / denominator;
      q1 * w / denominator + q2 * w / denominator;
    }
  }

  lemma PriceAdd(price: real, q1: real, q2: real, sum: real)
    requires sum == q1 + q2
    ensures price * sum == price * q1 + price * q2
  {
  }

  /** The reference cost is additive in the quantity. */
  lemma {:induction false} CostAdds(d: Dialect, catalog: map<Name, Json>, store: map<Name, Json>,
                                    rank: map<Name, nat>, name: Name, q1: real, q2: real, sum: real)
    requires Ranked(d, store, rank) && sum == q1 + q2
    ensures CostOf(d, catalog, store, rank, name, sum)
         == CostOf(d, catalog, store, rank, name, q1) + CostOf(d, catalog, store, rank, name, q2)
    decreases Rank(rank, name), 1
  {
    if name in catalog {
      match NumberAt(catalog[name], name, d.priceField)
      case Err(_) =>
      case Ok(price) => PriceAdd(price, q1, q2, sum);
    } else if name in store && AsTable(store[name]).Some? {
      CostsAdd(d, catalog, store, rank, name, AsTable(store[name]).value, 0, q1, q2, sum);
    }
  }

  lemma {:induction false} CostsAdd(d: Dialect, catalog: map<Name, Json>, store: map<Name, Json>,
                                    rank: map<Name, nat>, name: Name, table: Table, i: nat, q1: real, q2: real, sum: real)
    requires Ranked(d, store, rank) && sum == q1 + q2
    requires name in store && AsTable(store[name]) == Some(table) && i <= |table|
    ensures CostsFrom(d, catalog, store, rank, name, table, i, sum)
         == CostsFrom(d, catalog, store, rank, name, table, i, q1) + CostsFrom(d, catalog, store, rank, name, table, i, q2)
    decreases Rank(rank, name), 0, |table| - i
  {
    if i < |table| && Denominator(table) != 0.0 {
      CostsAdd(d, catalog, store, rank, name, table, i + 1, q1, q2, sum);
      match SourceOf(d, table[i].0)
      case None =>
      case Some(source) =>
        ChildRanked(d, store, rank, name, table, i, source);
        var den := Denominator(table);
        ShareAdd(q1, q2, sum, table[i].1, den);
        CostAdds(d, catalog, store, rank, source, Share(q1, table[i].1, den), Share(q2, table[i].1, den), Share(sum, table[i].1, den));
    }
  }

  /** Resolving a name for `q1` and for `q2` costs what resolving it once for
      `q1 + q2` does, whatever the aggregation tables held. */
  lemma CostIsLinear(d: Dialect, catalog: map<Name, Json>, store: map<Name, Json>,
                     rank: map<Name, nat>, name: Name, q1: real, q2: real, t1: Aggregates, t2: Aggregates, t3: Aggregates)
    requires Ranked(d, store, rank)
    requires Resolve(d, catalog, store, rank, name, q1, t1).Ok?
    requires Resolve(d, catalog, store, rank, name, q2, t2).Ok?
    requires Resolve(d, catalog, store, rank, name, q1 + q2, t3).Ok?
    ensures Resolve(d, catalog, store, rank, name, q1, t1).value.cost + Resolve(d, catalog, store, rank, name, q2, t2).value.cost
         == Resolve(d, catalog, store, rank, name, q1 + q2, t3).value.cost
  {
    ResolveCost(d, catalog, store, rank, name, q1, t1);
    ResolveCost(d, catalog, store, rank, name, q2, t2);
    ResolveCost(d, catalog, store, rank, name, q1 + q2, t3);
    CostAdds(d, catalog, store, rank, name, q1, q2, q1 + q2);
  }

  /** An entry without buckets (the `{}` record prod.py writes for a product
      before resolving it) survives every successful visit unchanged: visiting
      it as a recipe would fail on its missing buckets. */
  lemma {:induction false} ResolveKeepsEmpty(d: Dialect, catalog: map<Name, Json>, store: map<Name, Json>,
                                             rank: map<Name, nat>, name: Name, q: real, t: Aggregates, x: Name)
    requires Ranked(d, store, rank) && x in t && t[x].buckets.None?
    requires Resolve(d, catalog, store, rank, name, q, t).Ok?
    ensures x in Resolve(d, catalog, store, rank, name, q, t).value.table
    ensures Resolve(d, catalog, store, rank, name, q, t).value.table[x] == t[x]
    decreases Rank(rank, name), 1, 0
  {
    if name !in catalog {
      var table := AsTable(store[name]).value;
      var start := Start(d, store, name, t);
      VisitOk(d, catalog, store, rank, name, q, t);
      if name == x {
        ComponentsNoBuckets(d, catalog, store, rank, name, table, 0, q, start);
        assert false;
      }
      ComponentsKeepsEmpty(d, catalog, store, rank, name, table, 0, q, start, x);
    }
  }

  lemma {:induction false} ComponentsKeepsEmpty(d: Dialect, catalog: map<Name, Json>, store: map<Name, Json>,
                                                rank: map<Name, nat>, name: Name, table: Table, i: nat, q: real,
                                                acc: Visit, x: Name)
    requires Visiting(d, store, rank, name, table, i, acc)
    requires x != name && x in acc.table && acc.table[x].buckets.None?
    requires Components(d, catalog, store, rank, name, table, i, q, acc).Ok?
    ensures x in Components(d, catalog, store, rank, name, table, i, q, acc).value.table
    ensures Components(d, catalog, store, rank, name, table, i, q, acc).value.table[x] == acc.table[x]
    decreases Rank(rank, name), 0, |table| - i
  {
    if i < |table| {
      var next := Step(d, catalog, store, rank, name, table, i, q, acc).value;
      if !Skipped(d, table[i].0) {
        StepOk(d, catalog, store, rank, name, table, i, q, acc);
        var (source, display) := Names(d, table[i].0).value;
        var share := Share(q, table[i].1, Denominator(table));
        ResolveKeepsEmpty(d, catalog, store, rank, source, share, Merge(acc.table, name, display, share), x);
      }
      ComponentsKeepsEmpty(d, catalog, store, rank, name, table, i + 1, q, next, x);
    }
  }
}
