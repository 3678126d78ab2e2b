/** The recipe resolver shared by the four programs: `follow_recipe` in
    main.py, calcule.py and cook-recipes.py, and `Touille.detail` in prod.py.
    The copies differ only in the points a `Dialect` records; the
    specification below is their common meaning. */
module Resolver {
  import opened Data
  import opened Text
  import opened Sums

  /** What distinguishes one copy of the resolver from another. */
  datatype Dialect = Dialect(
    separator: char,    // between the source name and the display name of a key
    lenient: bool,      // a key that does not split into exactly two names names itself
    skipDash: bool,     // keys starting with '-' are not components
    priceField: string, // field of a base ingredient holding its unit price
    sellingKey: string, // recipe key whose presence seeds `seeds` to zero
    seeds: seq<string>, // fields seeded to zero on a sellable recipe's first visit
    bucketsKey: string, // field of an aggregate holding its buckets
    totalKey: string)   // field of an aggregate holding the sum of its buckets

  /** One entry of the run-wide aggregation table: the buckets (display name to
      absolute quantity) and the numeric fields beside them. The buckets are
      absent for the `{}` record prod.py writes for a product. */
  datatype Entry = Entry(buckets: Option<map<Name, real>>, fields: map<string, real>)

  type Aggregates = map<Name, Entry>

  /** What one visit yields: its cost, its direct children (display name to
      quantity, last write wins) and the aggregation table afterwards. */
  datatype Visit = Visit(cost: real, children: map<Name, real>, table: Aggregates)

  /** A weight table, when the recipe file is a mapping of numbers. */
  function AsTable(j: Json): (r: Option<Table>)
    ensures j.Obj? && (forall i :: 0 <= i < |j.members| ==> j.members[i].1.Num?) ==> r.Some?
    ensures r.Some? ==> j.Obj? && |r.value| == |j.members|
    ensures r.Some? ==> forall i :: 0 <= i < |j.members| ==> j.members[i] == (r.value[i].0, Num(r.value[i].1))
  {
    if j.Obj? then Numbers(j.members) else None
  }

  function Numbers(members: seq<(string, Json)>): (r: Option<Table>)
    ensures (forall i :: 0 <= i < |members| ==> members[i].1.Num?) ==> r.Some?
    ensures r.Some? ==> |r.value| == |members|
    ensures r.Some? ==> forall i :: 0 <= i < |members| ==> members[i] == (r.value[i].0, Num(r.value[i].1))
  {
    if |members| == 0 then Some([])
    else if !members[0].1.Num? then None
    else match Numbers(members[1..])
      case None => None
      case Some(rest) => Some([(members[0].0, members[0].1.n)] + rest)
  }

  /** A key the resolver passes over. */
  predicate Skipped(d: Dialect, key: string) {
    d.skipDash && StartsWith(key, "-")
  }

  /** The (source name, display name) a component key stands for. */
  function Names(d: Dialect, key: string): (r: Result<(Name, Name)>)
    ensures r.Ok? && |Split(key, d.separator)| == 2 ==>
      r.value == (Split(key, d.separator)[0], Split(key, d.separator)[1])
    ensures r.Ok? && |Split(key, d.separator)| != 2 ==> r.value == (key, key)
    ensures r.Err? <==> !d.lenient && |Split(key, d.separator)| > 2
  {
    var parts := Split(key, d.separator);
    if |parts| == 2 then Ok((parts[0], parts[1]))
    else if d.lenient || |parts| == 1 then Ok((key, key))
    else Err(BadKey(key))
  }

  /** The name a component is resolved as, for keys that are components. */
  function SourceOf(d: Dialect, key: string): Option<Name> {
    if Skipped(d, key) then None
    else match Names(d, key)
      case Ok(names) => Some(names.0)
      case Err(_) => None
  }

  /** The names a recipe file sends the resolver to. */
  ghost function Children(d: Dialect, j: Json): set<Name> {
    match AsTable(j)
      case None => {}
      case Some(t) => set i | 0 <= i < |t| && SourceOf(d, t[i].0).Some? :: SourceOf(d, t[i].0).value
  }

  function Rank(rank: map<Name, nat>, n: Name): nat {
    if n in rank then rank[n] else 0
  }

  /** The recipe graph is acyclic, witnessed by a rank that every component
      has below its recipe. The programs themselves have no cycle guard. */
  ghost predicate Ranked(d: Dialect, store: map<Name, Json>, rank: map<Name, nat>) {
    forall n, c :: n in store && c in Children(d, store[n]) ==> Rank(rank, c) < Rank(rank, n)
  }

  /** The common context of a visit of recipe `name` at component `i`. */
  ghost predicate Visiting(d: Dialect, store: map<Name, Json>, rank: map<Name, nat>, name: Name,
                           table: Table, i: nat, acc: Visit) {
    Ranked(d, store, rank) && name in store && AsTable(store[name]) == Some(table) && i <= |table| && name in acc.table
  }

  /** The entry created on a recipe's first visit. */
  function NewEntry(d: Dialect, recipe: Json): (e: Entry)
    ensures e.buckets == Some(map[])
    ensures HasKey(recipe, d.sellingKey) ==> e.fields.Keys == set s | s in d.seeds
    ensures !HasKey(recipe, d.sellingKey) ==> e.fields == map[]
    ensures forall s :: s in e.fields ==> e.fields[s] == 0.0
  {
    Entry(Some(map[]), if HasKey(recipe, d.sellingKey) then map s | s in d.seeds :: 0.0 else map[])
  }

  /** The resolver's meaning: resolving `name` for quantity `q` against the
      aggregation table `t`. A base ingredient costs its price times `q`;
      anything else is loaded as a recipe and its components are resolved in
      order by `Components`. */
  ghost function Resolve(d: Dialect, catalog: map<Name, Json>, store: map<Name, Json>,
                         rank: map<Name, nat>, name: Name, q: real, t: Aggregates): (r: Result<Visit>)
    requires Ranked(d, store, rank)
    ensures r.Ok? ==> t.Keys <= r.value.table.Keys
    decreases Rank(rank, name), 1, 0, 0
  {
    if name in catalog then
      match NumberAt(catalog[name], name, d.priceField)
        case Err(e) => Err(e)
        case Ok(price) => Ok(Visit(price * q, map[], t))
    else if name !in store then Err(NotFound(name))
    else match AsTable(store[name])
      case None => Err(WrongType(name))
      case Some(table) =>
        var t1 := if name in t then t else t[name := NewEntry(d, store[name])];
        match Components(d, catalog, store, rank, name, table, 0, q, Visit(0.0, map[], t1))
          case Err(e) => Err(e)
          case Ok(v) => Finish(d, name, v)
  }

  /** The components of recipe `name` from index `i` on, with `acc` the visit
      so far, processed one `Step` at a time. */
  ghost function Components(d: Dialect, catalog: map<Name, Json>, store: map<Name, Json>,
                            rank: map<Name, nat>, name: Name, table: Table, i: nat, q: real,
                            acc: Visit): (r: Result<Visit>)
    requires Visiting(d, store, rank, name, table, i, acc)
    ensures r.Ok? ==> acc.table.Keys <= r.value.table.Keys
    decreases Rank(rank, name), 0, |table| - i, 1
  {
    if i == |table| then Ok(acc)
    else
      match Step(d, catalog, store, rank, name, table, i, q, acc)
        case Err(e) => Err(e)
        case Ok(next) => Components(d, catalog, store, rank, name, table, i + 1, q, next)
  }

  /** Component `i` of recipe `name`: unless its key is skipped, it is allotted
      `q * weight / Σ weights`, merged into the recipe's bucket for its display
      name, recorded as a direct child and resolved, and its cost is added. */
  ghost function Step(d: Dialect, catalog: map<Name, Json>, store: map<Name, Json>,
                      rank: map<Name, nat>, name: Name, table: Table, i: nat, q: real,
                      acc: Visit): (r: Result<Visit>)
    requires Visiting(d, store, rank, name, table, i, acc) && i < |table|
    ensures r.Ok? ==> acc.table.Keys <= r.value.table.Keys && name in r.value.table
    decreases Rank(rank, name), 0, |table| - i, 0
  {
    if Skipped(d, table[i].0) then Ok(acc)
    else match Names(d, table[i].0)
      case Err(e) => Err(e)
      case Ok((source, display)) =>
        var denominator := Denominator(table);
        if denominator == 0.0 then Err(DivisionByZero(name))
        else
          var share := Share(q, table[i].1, denominator);
          if acc.table[name].buckets.None? then Err(MissingKey(name, d.bucketsKey))
          else
              var t2 := Merge(acc.table, name, display, share);
              ChildRanked(d, store, rank, name, table, i, source);
              match Resolve(d, catalog, store, rank, source, share, t2)
                case Err(e) => Err(e)
                case Ok(sub) => Ok(Visit(acc.cost + sub.cost, acc.children[display := share], sub.table))
  }

  /** The quantity allotted to a component of weight `weight` out of
      `denominator` when the recipe is resolved for `q`. */
  function Share(q: real, weight: real, denominator: real): real
    requires denominator != 0.0
  {
    q * weight / denominator
  }

  /** The table after `share` is merged into the bucket `display` of `name`. */
  function Merge(t: Aggregates, name: Name, display: Name, share: real): (r: Aggregates)
    requires name in t && t[name].buckets.Some?
    ensures r.Keys == t.Keys && r[name].fields == t[name].fields
    ensures r[name].buckets == Some(Add(t[name].buckets.value, display, share))
    ensures forall x :: x in t && x != name ==> r[x] == t[x]
  {
    t[name := t[name].(buckets := Some(Add(t[name].buckets.value, display, share)))]
  }

  /** A component's source name ranks below its recipe. */
  lemma ChildRanked(d: Dialect, store: map<Name, Json>, rank: map<Name, nat>, name: Name,
                    table: Table, i: nat, source: Name)
    requires Ranked(d, store, rank)
    requires name in store && AsTable(store[name]) == Some(table)
    requires i < |table| && !Skipped(d, table[i].0) && Names(d, table[i].0).Ok?
    requires Names(d, table[i].0).value.0 == source
    ensures Rank(rank, source) < Rank(rank, name)
  {
    assert SourceOf(d, table[i].0) == Some(source);
    assert source in Children(d, store[name]);
  }

  /** `Components` from `i` is `Step` at `i` followed by `Components` from `i + 1`. */
  lemma Advance(d: Dialect, catalog: map<Name, Json>, store: map<Name, Json>,
                rank: map<Name, nat>, name: Name, table: Table, i: nat, q: real, acc: Visit)
    requires Visiting(d, store, rank, name, table, i, acc) && i < |table|
    ensures Step(d, catalog, store, rank, name, table, i, q, acc).Err? ==>
      Components(d, catalog, store, rank, name, table, i, q, acc)
      == Err(Step(d, catalog, store, rank, name, table, i, q, acc).error)
    ensures Step(d, catalog, store, rank, name, table, i, q, acc).Ok? ==>
      Components(d, catalog, store, rank, name, table, i, q, acc)
      == Components(d, catalog, store, rank, name, table, i + 1, q, Step(d, catalog, store, rank, name, table, i, q, acc).value)
  {
  }

  /** The last step of a visit: `total_weight` becomes the sum of the buckets. */
  ghost function Finish(d: Dialect, name: Name, v: Visit): (r: Result<Visit>)
    requires name in v.table
    ensures r.Ok? ==> v.table.Keys <= r.value.table.Keys
  {
    match v.table[name].buckets
      case None => Err(MissingKey(name, d.bucketsKey))
      case Some(b) =>
        var e := v.table[name];
        Ok(v.(table := v.table[name := e.(fields := e.fields[d.totalKey := Total(b)])]))
  }

  /** The recursive resolver with its loop over the components, threading the
      aggregation table that calcule.py and cook-recipes.py pass by reference. */
  method FollowRecipe(d: Dialect, catalog: map<Name, Json>, store: map<Name, Json>,
                      ghost rank: map<Name, nat>, aggregates: Aggregates, name: Name, q: real)
    returns (r: Result<Visit>)
    requires Ranked(d, store, rank)
    ensures r == Resolve(d, catalog, store, rank, name, q, aggregates)
    decreases Rank(rank, name), 1
  {
    if name in catalog {
      var price := NumberAt(catalog[name], name, d.priceField);
      if price.Err? {
        return Err(price.error);
      }
      assert Resolve(d, catalog, store, rank, name, q, aggregates).value == Visit(price.value * q, map[], aggregates);
      return Ok(Visit(price.value * q, map[], aggregates));
    }
    if name !in store {
      return Err(NotFound(name));
    }
    var recipe := AsTable(store[name]);
    if recipe.None? {
      return Err(WrongType(name));
    }
    var table := recipe.value;
    var denominator := Denominator(table);
    var t := aggregates;
    if name !in t {
      t := t[name := NewEntry(d, store[name])];
    }
    var v := Visit(0.0, map[], t);
    ghost var start := v;
    var i := 0;
    while i < |table|
      invariant Visiting(d, store, rank, name, table, i, v)
      invariant Components(d, catalog, store, rank, name, table, 0, q, start)
             == Components(d, catalog, store, rank, name, table, i, q, v)
    {
      Advance(d, catalog, store, rank, name, table, i, q, v);
      var next := FollowComponent(d, catalog, store, rank, name, table, denominator, i, q, v);
      if next.Err? {
        return Err(next.error);
      }
      v := next.value;
      i := i + 1;
    }
    var entry := v.table[name];
    if entry.buckets.None? {
      return Err(MissingKey(name, d.bucketsKey));
    }
    var total := SumValues(entry.buckets.value);
    return Ok(v.(table := v.table[name := entry.(fields := entry.fields[d.totalKey := total])]));
  }

  /** One pass of the resolver's loop: component `i` of recipe `name`, whose
      weights sum to `denominator`, on top of the visit `v` so far. */
  method FollowComponent(d: Dialect, catalog: map<Name, Json>, store: map<Name, Json>,
                         ghost rank: map<Name, nat>, name: Name, table: Table, denominator: real,
                         i: nat, q: real, v: Visit)
    returns (r: Result<Visit>)
    requires Visiting(d, store, rank, name, table, i, v) && i < |table|
    requires denominator == Denominator(table)
    ensures r == Step(d, catalog, store, rank, name, table, i, q, v)
    decreases Rank(rank, name), 0
  {
    var key, weight := table[i].0, table[i].1;
    if Skipped(d, key) {
      return Ok(v);
    }
    var names := Names(d, key);
    if names.Err? {
      return Err(names.error);
    }
    var (source, display) := names.value;
    if denominator == 0.0 {
      return Err(DivisionByZero(name));
    }
    var quantity := Share(q, weight, denominator);
    if v.table[name].buckets.None? {
      return Err(MissingKey(name, d.bucketsKey));
    }
    var t := Merge(v.table, name, display, quantity);
    ChildRanked(d, store, rank, name, table, i, source);
    var sub := FollowRecipe(d, catalog, store, rank, t, source, quantity);
    if sub.Err? {
      return Err(sub.error);
    }
    return Ok(Visit(v.cost + sub.value.cost, v.children[display := quantity], sub.value.table));
  }
}
