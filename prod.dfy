/** prod.py: the same resolver and product loop, held in the class `Touille`
    whose `ingredients` table is updated in place, with every file read
    through the memoising `CacheJson`. Recipes, products and sub-recipes all
    share the one table. */
module Prod {
  import opened Data
  import opened Sums
  import opened Resolver
  import opened ResolverFacts
  import opened Loading
  import opened Pricing

  /** `:` separates source and alias, keys starting with `-` are skipped, and a
      sellable recipe seeds two fields. */
  const ProdDialect := Dialect(':', false, true, "prix", "prix-de-vente-1kg-ttc",
                               ["prix-de-revient-ht", "quantite"], "recette", "poids-total")

  /** The files are acyclic whatever directory a basename is read from: the
      cache may hand a product or an order file to the resolver under a
      recipe's name. */
  ghost predicate RankedFiles(files: Files, rank: map<Name, nat>) {
    forall p, c :: p in files && c in Children(ProdDialect, files[p]) ==> Rank(rank, c) < Rank(rank, p.1)
  }

  lemma ViewRanked(c: map<string, Json>, files: Files, directory: string, rank: map<Name, nat>)
    requires Ranked(ProdDialect, c, rank) && RankedFiles(files, rank)
    ensures Ranked(ProdDialect, View(c, files, directory), rank)
  {
    var v := View(c, files, directory);
    forall n, ch | n in v && ch in Children(ProdDialect, v[n]) ensures Rank(rank, ch) < Rank(rank, n) {
      if n !in c {
        assert (directory, n) in files && v[n] == files[(directory, n)];
      }
    }
  }

  lemma RememberRanked(c: map<string, Json>, files: Files, directory: string, basename: string, rank: map<Name, nat>)
    requires Ranked(ProdDialect, c, rank) && RankedFiles(files, rank)
    ensures Ranked(ProdDialect, Remember(c, files, directory, basename), rank)
  {
    var c' := Remember(c, files, directory, basename);
    forall n, ch | n in c' && ch in Children(ProdDialect, c'[n]) ensures Rank(rank, ch) < Rank(rank, n) {
      if n !in c {
        assert (directory, n) in files && c'[n] == files[(directory, n)];
      }
    }
  }

  /** The part of `m` on `keys`. */
  function Restrict(m: map<Name, Json>, keys: set<Name>): (r: map<Name, Json>)
    ensures r.Keys == keys * m.Keys
    ensures forall b :: b in r ==> r[b] == m[b]
  {
    map b | b in keys && b in m :: m[b]
  }

  /** Cache contents are determined by their keys once their view of the
      recipes is known. */
  lemma ViewDetermines(c: map<string, Json>, files: Files, directory: string)
    ensures c == Restrict(View(c, files, directory), c.Keys)
  {
  }

  /** The recipes a visit reads through the cache, in the shape of `Resolve`:
      the recipe itself, then those its components reach in turn, up to the
      first error. */
  ghost function Reached(d: Dialect, catalog: map<Name, Json>, store: map<Name, Json>,
                         rank: map<Name, nat>, name: Name, q: real, t: Aggregates): (r: set<Name>)
    requires Ranked(d, store, rank)
    ensures r <= store.Keys
    decreases Rank(rank, name), 1, 0, 0
  {
    if name in catalog || name !in store then {}
    else match AsTable(store[name])
      case None => {name}
      case Some(table) =>
        {name} + ReachedComponents(d, catalog, store, rank, name, table, 0, q, Start(d, store, name, t))
  }

  ghost function ReachedComponents(d: Dialect, catalog: map<Name, Json>, store: map<Name, Json>,
                                   rank: map<Name, nat>, name: Name, table: Table, i: nat, q: real,
                                   acc: Visit): (r: set<Name>)
    requires Visiting(d, store, rank, name, table, i, acc)
    ensures r <= store.Keys
    decreases Rank(rank, name), 0, |table| - i, 1
  {
    if i == |table| then {}
    else
      match Step(d, catalog, store, rank, name, table, i, q, acc)
        case Err(_) => ReachedStep(d, catalog, store, rank, name, table, i, q, acc)
        case Ok(next) =>
          ReachedStep(d, catalog, store, rank, name, table, i, q, acc)
          + ReachedComponents(d, catalog, store, rank, name, table, i + 1, q, next)
  }

  ghost function ReachedStep(d: Dialect, catalog: map<Name, Json>, store: map<Name, Json>,
                             rank: map<Name, nat>, name: Name, table: Table, i: nat, q: real,
                             acc: Visit): (r: set<Name>)
    requires Visiting(d, store, rank, name, table, i, acc) && i < |table|
    ensures r <= store.Keys
    decreases Rank(rank, name), 0, |table| - i, 0
  {
    if Skipped(d, table[i].0) || Names(d, table[i].0).Err? || Denominator(table) == 0.0
       || acc.table[name].buckets.None? then {}
    else
      var (source, display) := Names(d, table[i].0).value;
      var share := Share(q, table[i].1, Denominator(table));
      ChildRanked(d, store, rank, name, table, i, source);
      Reached(d, catalog, store, rank, source, share, Merge(acc.table, name, display, share))
  }

  /** What `detail` returns for a visit: its cost and its direct children. */
  function Outcome(r: Result<Visit>): (o: Result<(real, map<Name, real>)>)
    ensures o.Ok? <==> r.Ok?
    ensures o.Err? ==> o.error == r.error
    ensures o.Ok? ==> o.value == (r.value.cost, r.value.children)
  {
    match r
      case Err(e) => Err(e)
      case Ok(v) => Ok((v.cost, v.children))
  }

  /** The state a run threads: the cache contents and the shared table. */
  datatype State = State(cache: map<string, Json>, ingredients: Aggregates)

  /** One line of an order file in prod.py: the product's `{}` placeholder is
      written first, its recipe is resolved for the order's dough against the
      recipes as the cache shows them, and its record is then completed. A
      zero count is not skipped. */
  ghost function Produce(files: Files, rank: map<Name, nat>, catalog: map<Name, Json>, general: Json,
                         s: State, name: Name, count: Json): (r: Result<State>)
    requires RankedFiles(files, rank) && Ranked(ProdDialect, s.cache, rank)
    ensures r.Ok? ==> Ranked(ProdDialect, r.value.cache, rank)
  {
    var infos := Cached(s.cache, files, "produits", name);
    if infos.Err? then Err(infos.error)
    else
      var c := Remember(s.cache, files, "produits", name);
      var t := s.ingredients[name := Entry(None, map[])];
      var dough := NumberAt(infos.value, name, "poids-paton");
      if dough.Err? then Err(dough.error)
      else if !count.Num? then Err(WrongType(name))
      else
        var loss := NumberOr(infos.value, name, "taux-perte", 1.0);
        var root := StringAt(infos.value, name, "recette");
        if root.Err? then Err(root.error)
        else if loss.Err? then Err(loss.error)
        else
          RememberRanked(s.cache, files, "produits", name, rank);
          ProduceRecipe(files, rank, catalog, general, c, t, name, infos.value, count.n, dough.value, loss.value, root.value)
  }

  /** The rest of an order line once the product file is read: the recipe
      `root` is resolved for the dough against the recipes as cache contents
      `c` show them, and the product's record is completed. */
  ghost function ProduceRecipe(files: Files, rank: map<Name, nat>, catalog: map<Name, Json>, general: Json,
                               c: map<string, Json>, t: Aggregates, name: Name, infos: Json,
                               count: real, dough: real, loss: real, root: Name): (r: Result<State>)
    requires RankedFiles(files, rank) && Ranked(ProdDialect, c, rank) && name in t
    ensures r.Ok? ==> Ranked(ProdDialect, r.value.cache, rank)
  {
    ViewRanked(c, files, "recettes", rank);
    var store := View(c, files, "recettes");
    var weight := Dough(count, dough, loss);
    var v := Resolve(ProdDialect, catalog, store, rank, root, weight, t);
    if v.Err? then Err(v.error)
    else
      var c' := Restrict(store, c.Keys + Reached(ProdDialect, catalog, store, rank, root, weight, t));
      assert Ranked(ProdDialect, c', rank) by {
        forall n, ch | n in c' && ch in Children(ProdDialect, c'[n]) ensures Rank(rank, ch) < Rank(rank, n) {
          assert c'[n] == store[n];
        }
      }
      var done := Complete(v.value.table, name, v.value.children, v.value.cost, infos, general, count, dough);
      if done.Err? then Err(done.error) else Ok(State(c', done.value))
  }

  /** The product's record in table `t` once its recipe cost `cost` and has
      direct children `children`: the children, the count and the dough
      weight, and with a selling price also the price of a piece and the
      gross margin rate. */
  function Complete(t: Aggregates, name: Name, children: map<Name, real>, cost: real, infos: Json,
                    general: Json, count: real, dough: real): (r: Result<Aggregates>)
    requires name in t
    ensures r.Ok? ==> r.value.Keys == t.Keys && r.value[name].buckets == Some(children)
    ensures r.Ok? ==> "quantite" in r.value[name].fields && r.value[name].fields["quantite"] == count
    ensures r.Ok? ==> "poids-paton" in r.value[name].fields && r.value[name].fields["poids-paton"] == dough
  {
    var e := t[name];
    var record := e.(buckets := Some(children), fields := e.fields["quantite" := count]["poids-paton" := dough]);
    if !HasKey(infos, "prix-de-vente-1kg-ttc") then Ok(t[name := record])
    else
      var sell := NumberAt(infos, name, "prix-de-vente-1kg-ttc");
      var baked := NumberAt(infos, name, "poids-pain-cuit");
      var vat := NumberAt(general, "general", "tva");
      if sell.Err? then Err(sell.error)
      else if baked.Err? then Err(baked.error)
      else if vat.Err? then Err(vat.error)
      else
        var m := Margins(name, sell.value, baked.value, vat.value, cost, count);
        if m.Err? then Err(m.error)
        else
          Ok(t[name := record.(fields := record.fields["prix-de-vente-piece-ttc" := m.value.pieceInclTax]
                                                     ["taux-marge-brute" := m.value.rate])])
  }

  /** The record `Complete` writes: the other entries stay as they are, the
      product's buckets become the direct children, `quantite` and
      `poids-paton` are set, and with a selling price the count is not zero,
      the price of a piece is the price per kilogram times the baked weight
      and the margin rate, the one `Margins` computes from `cost`, recovers
      the cost per piece from the price without tax. */
  lemma CompleteRecord(t: Aggregates, name: Name, children: map<Name, real>, cost: real, infos: Json,
                       general: Json, count: real, dough: real)
    requires name in t && Complete(t, name, children, cost, infos, general, count, dough).Ok?
    ensures var r := Complete(t, name, children, cost, infos, general, count, dough).value;
      && r.Keys == t.Keys
      && (forall x :: x in t && x != name ==> r[x] == t[x])
      && r[name].buckets == Some(children)
      && r[name].fields.Keys == t[name].fields.Keys + {"quantite", "poids-paton"}
           + (if HasKey(infos, "prix-de-vente-1kg-ttc") then {"prix-de-vente-piece-ttc", "taux-marge-brute"} else {})
      && r[name].fields["quantite"] == count
      && r[name].fields["poids-paton"] == dough
    ensures HasKey(infos, "prix-de-vente-1kg-ttc") ==>
      var r := Complete(t, name, children, cost, infos, general, count, dough).value;
      var sell := NumberAt(infos, name, "prix-de-vente-1kg-ttc").value;
      var baked := NumberAt(infos, name, "poids-pain-cuit").value;
      var vat := NumberAt(general, "general", "tva").value;
      && Margins(name, sell, baked, vat, cost, count).Ok?
      && r[name].fields["taux-marge-brute"] == Margins(name, sell, baked, vat, cost, count).value.rate
      && count != 0.0 && vat != 0.0
      && r[name].fields["prix-de-vente-piece-ttc"] == sell * baked
      && cost / count == sell * baked / vat * (1.0 - r[name].fields["taux-marge-brute"] / 100.0)
  {
    if HasKey(infos, "prix-de-vente-1kg-ttc") {
      var sell := NumberAt(infos, name, "prix-de-vente-1kg-ttc").value;
      var baked := NumberAt(infos, name, "poids-pain-cuit").value;
      var vat := NumberAt(general, "general", "tva").value;
      var m := Margins(name, sell, baked, vat, cost, count).value;
      MarginRecoversCost(name, sell, baked, vat, cost, count);
      assert m.costPerPiece == cost / count;
      assert m.pieceExclTax == sell * baked / vat;
    }
  }

  /** A zero count is not skipped: for a product with a selling price, once
      the selling price, the baked weight and the tax rate are read, dividing
      the cost by the count fails. */
  lemma CompleteZeroCount(t: Aggregates, name: Name, children: map<Name, real>, cost: real, infos: Json,
                          general: Json, dough: real)
    requires name in t && HasKey(infos, "prix-de-vente-1kg-ttc")
    requires NumberAt(infos, name, "prix-de-vente-1kg-ttc").Ok? && NumberAt(infos, name, "poids-pain-cuit").Ok?
    requires NumberAt(general, "general", "tva").Ok?
    ensures Complete(t, name, children, cost, infos, general, 0.0, dough) == Err(DivisionByZero(name))
  {
  }

  /** `touille` replaces a product's entry whatever it held (a recipe of the
      same name included): after its order line the entry holds exactly the
      direct children of its recipe's visit for the order's dough, the count,
      the dough weight and, for a product with a selling price, the price of
      a piece and the margin rate `Margins` computes from the recipe's
      reference cost `CostOf`, and the count of such a product is not zero. */
  lemma ProduceRecord(files: Files, rank: map<Name, nat>, catalog: map<Name, Json>, general: Json,
                      s: State, name: Name, count: Json)
    requires RankedFiles(files, rank) && Ranked(ProdDialect, s.cache, rank)
    requires Produce(files, rank, catalog, general, s, name, count).Ok?
    ensures Cached(s.cache, files, "produits", name).Ok? && count.Num?
    ensures var infos := Cached(s.cache, files, "produits", name).value;
      var t := Produce(files, rank, catalog, general, s, name, count).value.ingredients;
      && s.ingredients.Keys + {name} <= t.Keys
      && t[name].buckets.Some?
      && t[name].fields.Keys == {"quantite", "poids-paton"}
           + (if HasKey(infos, "prix-de-vente-1kg-ttc") then {"prix-de-vente-piece-ttc", "taux-marge-brute"} else {})
      && t[name].fields["quantite"] == count.n
      && t[name].fields["poids-paton"] == NumberAt(infos, name, "poids-paton").value
      && (HasKey(infos, "prix-de-vente-1kg-ttc") ==> count.n != 0.0)
    ensures var infos := Cached(s.cache, files, "produits", name).value;
      && NumberAt(infos, name, "poids-paton").Ok? && NumberOr(infos, name, "taux-perte", 1.0).Ok?
      && StringAt(infos, name, "recette").Ok?
    ensures (RememberRanked(s.cache, files, "produits", name, rank);
      var c := Remember(s.cache, files, "produits", name);
      ViewRanked(c, files, "recettes", rank);
      var infos := Cached(s.cache, files, "produits", name).value;
      var store := View(c, files, "recettes");
      var weight := Dough(count.n, NumberAt(infos, name, "poids-paton").value, NumberOr(infos, name, "taux-perte", 1.0).value);
      var root := StringAt(infos, name, "recette").value;
      var t0 := s.ingredients[name := Entry(None, map[])];
      var t := Produce(files, rank, catalog, general, s, name, count).value.ingredients;
      && Resolve(ProdDialect, catalog, store, rank, root, weight, t0).Ok?
      && t[name].buckets == Some(Resolve(ProdDialect, catalog, store, rank, root, weight, t0).value.children)
      && (HasKey(infos, "prix-de-vente-1kg-ttc") ==>
            && NumberAt(infos, name, "prix-de-vente-1kg-ttc").Ok? && NumberAt(infos, name, "poids-pain-cuit").Ok?
            && NumberAt(general, "general", "tva").Ok?
            && var m := Margins(name, NumberAt(infos, name, "prix-de-vente-1kg-ttc").value,
                                NumberAt(infos, name, "poids-pain-cuit").value,
                                NumberAt(general, "general", "tva").value,
                                CostOf(ProdDialect, catalog, store, rank, root, weight), count.n);
               && m.Ok?
               && t[name].fields["prix-de-vente-piece-ttc"] == m.value.pieceInclTax
               && t[name].fields["taux-marge-brute"] == m.value.rate))
  {
    var infos := Cached(s.cache, files, "produits", name).value;
    RememberRanked(s.cache, files, "produits", name, rank);
    RecipeRecord(files, rank, catalog, general, Remember(s.cache, files, "produits", name),
                 s.ingredients[name := Entry(None, map[])], name, infos, count.n,
                 NumberAt(infos, name, "poids-paton").value, NumberOr(infos, name, "taux-perte", 1.0).value,
                 StringAt(infos, name, "recette").value);
  }

  /** `ProduceRecord` once the product file is read and the placeholder written. */
  lemma RecipeRecord(files: Files, rank: map<Name, nat>, catalog: map<Name, Json>, general: Json,
                     c: map<string, Json>, t: Aggregates, name: Name, infos: Json,
                     count: real, dough: real, loss: real, root: Name)
    requires RankedFiles(files, rank) && Ranked(ProdDialect, c, rank) && name in t && t[name] == Entry(None, map[])
    requires ProduceRecipe(files, rank, catalog, general, c, t, name, infos, count, dough, loss, root).Ok?
    ensures var t' := ProduceRecipe(files, rank, catalog, general, c, t, name, infos, count, dough, loss, root).value.ingredients;
      && t.Keys <= t'.Keys
      && t'[name].buckets.Some?
      && t'[name].fields.Keys == {"quantite", "poids-paton"}
           + (if HasKey(infos, "prix-de-vente-1kg-ttc") then {"prix-de-vente-piece-ttc", "taux-marge-brute"} else {})
      && t'[name].fields["quantite"] == count
      && t'[name].fields["poids-paton"] == dough
      && (HasKey(infos, "prix-de-vente-1kg-ttc") ==> count != 0.0)
    ensures (ViewRanked(c, files, "recettes", rank);
      var store := View(c, files, "recettes");
      var weight := Dough(count, dough, loss);
      var t' := ProduceRecipe(files, rank, catalog, general, c, t, name, infos, count, dough, loss, root).value.ingredients;
      && Resolve(ProdDialect, catalog, store, rank, root, weight, t).Ok?
      && t'[name].buckets == Some(Resolve(ProdDialect, catalog, store, rank, root, weight, t).value.children)
      && (HasKey(infos, "prix-de-vente-1kg-ttc") ==>
            && NumberAt(infos, name, "prix-de-vente-1kg-ttc").Ok? && NumberAt(infos, name, "poids-pain-cuit").Ok?
            && NumberAt(general, "general", "tva").Ok?
            && var m := Margins(name, NumberAt(infos, name, "prix-de-vente-1kg-ttc").value,
                                NumberAt(infos, name, "poids-pain-cuit").value,
                                NumberAt(general, "general", "tva").value,
                                CostOf(ProdDialect, catalog, store, rank, root, weight), count);
               && m.Ok?
               && t'[name].fields["prix-de-vente-piece-ttc"] == m.value.pieceInclTax
               && t'[name].fields["taux-marge-brute"] == m.value.rate))
  {
    ViewRanked(c, files, "recettes", rank);
    var store := View(c, files, "recettes");
    var weight := Dough(count, dough, loss);
    var v := Resolve(ProdDialect, catalog, store, rank, root, weight, t).value;
    ResolveKeepsEmpty(ProdDialect, catalog, store, rank, root, weight, t, name);
    CompleteRecord(v.table, name, v.children, v.cost, infos, general, count, dough);
    ResolveCost(ProdDialect, catalog, store, rank, root, weight, t);
  }

  /** A zero-count order line of a product with a selling price fails. */
  lemma ProduceZeroCount(files: Files, rank: map<Name, nat>, catalog: map<Name, Json>, general: Json,
                         s: State, name: Name)
    requires RankedFiles(files, rank) && Ranked(ProdDialect, s.cache, rank)
    requires Cached(s.cache, files, "produits", name).Ok?
    requires HasKey(Cached(s.cache, files, "produits", name).value, "prix-de-vente-1kg-ttc")
    ensures Produce(files, rank, catalog, general, s, name, Num(0.0)).Err?
  {
    if Produce(files, rank, catalog, general, s, name, Num(0.0)).Ok? {
      ProduceRecord(files, rank, catalog, general, s, name, Num(0.0));
      assert false;
    }
  }

  /** The lines of one order file from line `i` on, in order. */
  ghost function ProduceAll(files: Files, rank: map<Name, nat>, catalog: map<Name, Json>, general: Json,
                            s: State, items: seq<(string, Json)>, i: nat): (r: Result<State>)
    requires RankedFiles(files, rank) && Ranked(ProdDialect, s.cache, rank) && i <= |items|
    ensures r.Ok? ==> Ranked(ProdDialect, r.value.cache, rank)
    decreases |items| - i
  {
    if i == |items| then Ok(s)
    else
      var next := Produce(files, rank, catalog, general, s, items[i].0, items[i].1);
      if next.Err? then Err(next.error)
      else ProduceAll(files, rank, catalog, general, next.value, items, i + 1)
  }

  /** The reads `touille` starts with, through the cache from contents `c`:
      the order file, the raw materials and the general settings, in that
      order; the order file must be a mapping and the raw materials become a
      dictionary. The result is the dictionary, the order file and the
      settings. */
  ghost function Reads(files: Files, c: map<string, Json>, materialsFile: string, ordersFile: string,
                       generalFile: string): (r: Result<(map<Name, Json>, Json, Json)>)
    ensures r.Ok? ==> r.value.1.Obj?
  {
    var orders := Cached(c, files, "commandes", ordersFile);
    var c1 := Remember(c, files, "commandes", ordersFile);
    var materials := Cached(c1, files, "matieres-premieres", materialsFile);
    var c2 := Remember(c1, files, "matieres-premieres", materialsFile);
    var general := Cached(c2, files, ".", generalFile);
    if orders.Err? then Err(orders.error)
    else if materials.Err? then Err(materials.error)
    else if general.Err? then Err(general.error)
    else if !orders.value.Obj? then Err(WrongType(ordersFile))
    else
      var catalog := AsMap(materials.value, materialsFile);
      if catalog.Err? then Err(catalog.error)
      else Ok((catalog.value, orders.value, general.value))
  }

  /** `touille(matieres, commandes, general)`: the three reads, then the
      order lines against the cache the reads leave. */
  ghost function Stir(files: Files, rank: map<Name, nat>, s: State,
                      materialsFile: string, ordersFile: string, generalFile: string): (r: Result<State>)
    requires RankedFiles(files, rank) && Ranked(ProdDialect, s.cache, rank)
    ensures r.Ok? ==> Ranked(ProdDialect, r.value.cache, rank)
  {
    var read := Reads(files, s.cache, materialsFile, ordersFile, generalFile);
    if read.Err? then Err(read.error)
    else
      var c1 := Remember(s.cache, files, "commandes", ordersFile);
      var c2 := Remember(c1, files, "matieres-premieres", materialsFile);
      var c3 := Remember(c2, files, ".", generalFile);
      RememberRanked(s.cache, files, "commandes", ordersFile, rank);
      RememberRanked(c1, files, "matieres-premieres", materialsFile, rank);
      RememberRanked(c2, files, ".", generalFile, rank);
      ProduceAll(files, rank, read.value.0, read.value.2, State(c3, s.ingredients), read.value.1.members, 0)
  }

  /** The program: one `touille` per order file, on one cache and one table. */
  ghost function StirAll(files: Files, rank: map<Name, nat>, s: State, materialsFile: string,
                         orderFiles: seq<string>): (r: Result<State>)
    requires RankedFiles(files, rank) && Ranked(ProdDialect, s.cache, rank)
    decreases |orderFiles|
  {
    if |orderFiles| == 0 then Ok(s)
    else
      var next := Stir(files, rank, s, materialsFile, orderFiles[0], "general");
      if next.Err? then Err(next.error)
      else StirAll(files, rank, next.value, materialsFile, orderFiles[1..])
  }

  /** Cache contents `c` show the recipe files as `store`: anything cached
      is what the store holds under that name, and otherwise the store holds
      exactly the recipe files. */
  ghost predicate Shows(c: map<string, Json>, files: Files, store: map<Name, Json>) {
    && (forall b :: b in c ==> b in store && store[b] == c[b])
    && (forall b :: b !in c ==> (b in store <==> ("recettes", b) in files))
    && (forall b :: b !in c && b in store ==> store[b] == files[("recettes", b)])
  }

  lemma ShowsView(c: map<string, Json>, files: Files)
    ensures Shows(c, files, View(c, files, "recettes"))
  {
  }

  /** Cache contents that show `store` are the part of it on their keys. */
  lemma ShowsRestrict(c: map<string, Json>, files: Files, store: map<Name, Json>)
    requires Shows(c, files, store)
    ensures c == Restrict(store, c.Keys)
  {
  }

  /** Reading a recipe through the cache returns what the store holds and
      leaves the cache showing the same store. */
  lemma ShowsLoad(c: map<string, Json>, files: Files, store: map<Name, Json>, basename: string)
    requires Shows(c, files, store)
    ensures Shows(Remember(c, files, "recettes", basename), files, store)
    ensures Remember(c, files, "recettes", basename).Keys == c.Keys + (if basename in store then {basename} else {})
    ensures Cached(c, files, "recettes", basename) == if basename in store then Ok(store[basename]) else Err(NotFound(basename))
  {
  }

  lemma KeysAdvance(k0: set<Name>, all: set<Name>, k: set<Name>, rest: set<Name>, k': set<Name>,
                    step: set<Name>, rest': set<Name>)
    requires k0 + all == k + rest && k' == k + step && rest == step + rest'
    ensures k0 + all == k' + rest'
  {
  }

  /** A visit after a component's share and the visit of that component. */
  function Extend(acc: Visit, display: Name, share: real, sub: Result<Visit>): Result<Visit> {
    if sub.Err? then Err(sub.error) else Ok(Visit(acc.cost + sub.value.cost, acc.children[display := share], sub.value.table))
  }

  /** `Step` and `ReachedStep` for a component that gets its share. */
  lemma StepUnfold(d: Dialect, catalog: map<Name, Json>, store: map<Name, Json>,
                   rank: map<Name, nat>, name: Name, table: Table, i: nat, q: real, acc: Visit,
                   source: Name, display: Name, share: real)
    requires Visiting(d, store, rank, name, table, i, acc) && i < |table| && !Skipped(d, table[i].0)
    requires Names(d, table[i].0) == Ok((source, display)) && Denominator(table) != 0.0
    requires share == Share(q, table[i].1, Denominator(table)) && acc.table[name].buckets.Some?
    ensures Rank(rank, source) < Rank(rank, name)
    ensures var sub := Resolve(d, catalog, store, rank, source, share, Merge(acc.table, name, display, share));
      && Step(d, catalog, store, rank, name, table, i, q, acc) == Extend(acc, display, share, sub)
      && ReachedStep(d, catalog, store, rank, name, table, i, q, acc)
         == Reached(d, catalog, store, rank, source, share, Merge(acc.table, name, display, share))
  {
    ChildRanked(d, store, rank, name, table, i, source);
  }

  lemma KeysVisit(k0: set<Name>, k1: set<Name>, k: set<Name>, name: Name, rest: set<Name>, reached: set<Name>)
    requires k1 == k0 + {name} && k == k1 + rest && reached == {name} + rest
    ensures k == k0 + reached
  {
  }

  /** `Reached` for a recipe that loads as a weight table. */
  lemma ReachedVisit(d: Dialect, catalog: map<Name, Json>, store: map<Name, Json>,
                     rank: map<Name, nat>, name: Name, q: real, t: Aggregates, table: Table)
    requires Ranked(d, store, rank) && name !in catalog && name in store && AsTable(store[name]) == Some(table)
    ensures Reached(d, catalog, store, rank, name, q, t)
         == {name} + ReachedComponents(d, catalog, store, rank, name, table, 0, q, Start(d, store, name, t))
    ensures var comps := Components(d, catalog, store, rank, name, table, 0, q, Start(d, store, name, t));
      Resolve(d, catalog, store, rank, name, q, t)
      == if comps.Err? then Err(comps.error) else Finish(d, name, comps.value)
  {
  }

  /** `ReachedComponents` from `i` is `ReachedStep` at `i` and then from `i + 1`. */
  lemma ReachedAdvance(d: Dialect, catalog: map<Name, Json>, store: map<Name, Json>,
                       rank: map<Name, nat>, name: Name, table: Table, i: nat, q: real, acc: Visit)
    requires Visiting(d, store, rank, name, table, i, acc) && i < |table|
    requires Step(d, catalog, store, rank, name, table, i, q, acc).Ok?
    ensures ReachedComponents(d, catalog, store, rank, name, table, i, q, acc)
         == ReachedStep(d, catalog, store, rank, name, table, i, q, acc)
          + ReachedComponents(d, catalog, store, rank, name, table, i + 1, q, Step(d, catalog, store, rank, name, table, i, q, acc).value)
  {
  }

  /** One turn of the loop over a recipe's components: the loop's account of
      the visit and of the cache keys moves on by one step. */
  lemma ComponentsStep(d: Dialect, catalog: map<Name, Json>, store: map<Name, Json>,
                       rank: map<Name, nat>, name: Name, table: Table, i: nat, q: real, start: Visit,
                       acc: Visit, k0: set<Name>, k: set<Name>, k': set<Name>,
                       next: Result<(real, map<Name, real>)>, t: Aggregates)
    requires Visiting(d, store, rank, name, table, 0, start) && Visiting(d, store, rank, name, table, i, acc) && i < |table|
    requires Components(d, catalog, store, rank, name, table, 0, q, start)
          == Components(d, catalog, store, rank, name, table, i, q, acc)
    requires k0 + ReachedComponents(d, catalog, store, rank, name, table, 0, q, start)
          == k + ReachedComponents(d, catalog, store, rank, name, table, i, q, acc)
    requires next == Outcome(Step(d, catalog, store, rank, name, table, i, q, acc))
    requires Step(d, catalog, store, rank, name, table, i, q, acc).Ok? ==>
      && t == Step(d, catalog, store, rank, name, table, i, q, acc).value.table
      && k' == k + ReachedStep(d, catalog, store, rank, name, table, i, q, acc)
    ensures next.Err? ==> Err(next.error) == Outcome(Components(d, catalog, store, rank, name, table, 0, q, start))
    ensures next.Ok? ==>
      var after := Visit(next.value.0, next.value.1, t);
      && Visiting(d, store, rank, name, table, i + 1, after)
      && Components(d, catalog, store, rank, name, table, 0, q, start)
         == Components(d, catalog, store, rank, name, table, i + 1, q, after)
      && k0 + ReachedComponents(d, catalog, store, rank, name, table, 0, q, start)
         == k' + ReachedComponents(d, catalog, store, rank, name, table, i + 1, q, after)
  {
    Advance(d, catalog, store, rank, name, table, i, q, acc);
    var step := Step(d, catalog, store, rank, name, table, i, q, acc);
    if step.Ok? {
      var after := Visit(next.value.0, next.value.1, t);
      assert after == step.value;
      ReachedAdvance(d, catalog, store, rank, name, table, i, q, acc);
      KeysAdvance(k0, ReachedComponents(d, catalog, store, rank, name, table, 0, q, start),
                  k, ReachedComponents(d, catalog, store, rank, name, table, i, q, acc),
                  k', ReachedStep(d, catalog, store, rank, name, table, i, q, acc),
                  ReachedComponents(d, catalog, store, rank, name, table, i + 1, q, after));
    }
  }

  class Touille {
    var ingredients: Aggregates
    var matieres: map<Name, Json>
    var commandes: Json
    var general: Json
    const cache: CacheJson

    constructor(cache: CacheJson)
      ensures ingredients == map[] && this.cache == cache
    {
      ingredients := map[];
      matieres := map[];
      commandes := Other;
      general := Other;
      this.cache := cache;
    }

    /** `detail(ingredient, quantite_ingredient)`: resolves `ingredient` for
        `q` against the recipes as the cache shows them (`store`), filling
        `ingredients` and the cache; on success returns the cost and the
        direct children. */
    method Detail(ghost rank: map<Name, nat>, ghost store: map<Name, Json>, ingredient: Name, q: real)
      returns (r: Result<(real, map<Name, real>)>)
      requires cache.Valid() && Shows(cache.cache, cache.files, store) && Ranked(ProdDialect, store, rank)
      modifies this`ingredients, cache
      ensures cache.Valid() && Shows(cache.cache, cache.files, store)
      ensures var res := Resolve(ProdDialect, matieres, store, rank, ingredient, q, old(ingredients));
        && r == Outcome(res)
        && (res.Ok? ==>
              && ingredients == res.value.table
              && cache.cache.Keys == old(cache.cache).Keys + Reached(ProdDialect, matieres, store, rank, ingredient, q, old(ingredients)))
      decreases Rank(rank, ingredient), 4
    {
      if ingredient in matieres {
        var price := NumberAt(matieres[ingredient], ingredient, "prix");
        if price.Err? {
          return Err(price.error);
        }
        assert Resolve(ProdDialect, matieres, store, rank, ingredient, q, ingredients).value
            == Visit(price.value * q, map[], ingredients);
        return Ok((price.value * q, map[]));
      }
      ghost var c0 := cache.cache;
      ShowsLoad(c0, cache.files, store, ingredient);
      var recette := cache.LoadJson("recettes", ingredient);
      if recette.Err? {
        return Err(recette.error);
      }
      var table := AsTable(recette.value);
      if table.None? {
        return Err(WrongType(ingredient));
      }
      ReachedVisit(ProdDialect, matieres, store, rank, ingredient, q, ingredients, table.value);
      ghost var k1 := cache.cache.Keys;
      ghost var start := Start(ProdDialect, store, ingredient, ingredients);
      r := DetailRecipe(rank, store, ingredient, q, recette.value, table.value);
      if r.Ok? {
        KeysVisit(c0.Keys, k1, cache.cache.Keys, ingredient,
                  ReachedComponents(ProdDialect, matieres, store, rank, ingredient, table.value, 0, q, start),
                  Reached(ProdDialect, matieres, store, rank, ingredient, q, old(ingredients)));
      }
    }

    /** `detail` once the recipe is loaded as the weight table `table`: the
        entry created on the first visit, the loop over the components, and
        `poids-total`. */
    method DetailRecipe(ghost rank: map<Name, nat>, ghost store: map<Name, Json>, ingredient: Name, q: real,
                        recette: Json, table: Table)
      returns (r: Result<(real, map<Name, real>)>)
      requires cache.Valid() && Shows(cache.cache, cache.files, store) && Ranked(ProdDialect, store, rank)
      requires ingredient in store && store[ingredient] == recette && AsTable(recette) == Some(table)
      modifies this`ingredients, cache
      ensures cache.Valid() && Shows(cache.cache, cache.files, store)
      ensures var start := Start(ProdDialect, store, ingredient, old(ingredients));
        var comps := Components(ProdDialect, matieres, store, rank, ingredient, table, 0, q, start);
        var res := if comps.Err? then Err(comps.error) else Finish(ProdDialect, ingredient, comps.value);
        && r == Outcome(res)
        && (res.Ok? ==>
              && ingredients == res.value.table
              && cache.cache.Keys == old(cache.cache).Keys
                 + ReachedComponents(ProdDialect, matieres, store, rank, ingredient, table, 0, q, start))
      decreases Rank(rank, ingredient), 3
    {
      ghost var start := Start(ProdDialect, store, ingredient, ingredients);
      if ingredient !in ingredients {
        ingredients := ingredients[ingredient := NewEntry(ProdDialect, recette)];
      }
      var visit := DetailComponents(rank, store, ingredient, q, table, start);
      if visit.Err? {
        return Err(visit.error);
      }
      var entry := ingredients[ingredient];
      if entry.buckets.None? {
        return Err(MissingKey(ingredient, "recette"));
      }
      var total := SumValues(entry.buckets.value);
      ingredients := ingredients[ingredient := entry.(fields := entry.fields["poids-total" := total])];
      return visit;
    }

    /** The loop of `detail` over the components of recipe `ingredient`,
        accumulating the cost `prix` and the children `ingredients_recette`. */
    method DetailComponents(ghost rank: map<Name, nat>, ghost store: map<Name, Json>, ingredient: Name, q: real,
                            table: Table, ghost start: Visit)
      returns (r: Result<(real, map<Name, real>)>)
      requires cache.Valid() && Shows(cache.cache, cache.files, store)
      requires Visiting(ProdDialect, store, rank, ingredient, table, 0, start)
      requires start == Visit(0.0, map[], ingredients)
      modifies this`ingredients, cache
      ensures cache.Valid() && Shows(cache.cache, cache.files, store)
      ensures var comps := Components(ProdDialect, matieres, store, rank, ingredient, table, 0, q, start);
        && r == Outcome(comps)
        && (comps.Ok? ==>
              && ingredients == comps.value.table
              && cache.cache.Keys == old(cache.cache).Keys
                 + ReachedComponents(ProdDialect, matieres, store, rank, ingredient, table, 0, q, start))
      decreases Rank(rank, ingredient), 2
    {
      ghost var k0 := cache.cache.Keys;
      var facteur := Denominator(table);
      var prix := 0.0;
      var recetteIngredients := map[];
      var i := 0;
      while i < |table|
        invariant cache.Valid() && Shows(cache.cache, cache.files, store)
        invariant Visiting(ProdDialect, store, rank, ingredient, table, i, Visit(prix, recetteIngredients, ingredients))
        invariant Components(ProdDialect, matieres, store, rank, ingredient, table, 0, q, start)
               == Components(ProdDialect, matieres, store, rank, ingredient, table, i, q, Visit(prix, recetteIngredients, ingredients))
        invariant k0 + ReachedComponents(ProdDialect, matieres, store, rank, ingredient, table, 0, q, start)
               == cache.cache.Keys + ReachedComponents(ProdDialect, matieres, store, rank, ingredient, table, i, q, Visit(prix, recetteIngredients, ingredients))
      {
        ghost var acc := Visit(prix, recetteIngredients, ingredients);
        ghost var k := cache.cache.Keys;
        var next := DetailComponent(rank, store, ingredient, table, facteur, i, q, prix, recetteIngredients);
        ComponentsStep(ProdDialect, matieres, store, rank, ingredient, table, i, q, start, acc, k0, k, cache.cache.Keys,
                       next, ingredients);
        if next.Err? {
          return Err(next.error);
        }
        prix, recetteIngredients := next.value.0, next.value.1;
        i := i + 1;
      }
      return Ok((prix, recetteIngredients));
    }

    /** One pass of `detail`'s loop: component `i` of recipe `ingredient`,
        after the cost `prix` and the children `recetteIngredients` so far. */
    method DetailComponent(ghost rank: map<Name, nat>, ghost store: map<Name, Json>, ingredient: Name,
                           table: Table, facteur: real, i: nat, q: real, prix: real,
                           recetteIngredients: map<Name, real>)
      returns (r: Result<(real, map<Name, real>)>)
      requires cache.Valid() && Shows(cache.cache, cache.files, store)
      requires Visiting(ProdDialect, store, rank, ingredient, table, i, Visit(prix, recetteIngredients, ingredients))
      requires i < |table| && facteur == Denominator(table)
      modifies this`ingredients, cache
      ensures cache.Valid() && Shows(cache.cache, cache.files, store)
      ensures var acc := Visit(prix, recetteIngredients, old(ingredients));
        var step := Step(ProdDialect, matieres, store, rank, ingredient, table, i, q, acc);
        && r == Outcome(step)
        && (step.Ok? ==>
              && ingredients == step.value.table
              && cache.cache.Keys == old(cache.cache).Keys + ReachedStep(ProdDialect, matieres, store, rank, ingredient, table, i, q, acc))
      decreases Rank(rank, ingredient), 1
    {
      var key, weight := table[i].0, table[i].1;
      if Skipped(ProdDialect, key) {
        return Ok((prix, recetteIngredients));
      }
      var names := Names(ProdDialect, key);
      if names.Err? {
        return Err(names.error);
      }
      var (source, alias) := names.value;
      if facteur == 0.0 {
        return Err(DivisionByZero(ingredient));
      }
      var quantity := Share(q, weight, facteur);
      if ingredients[ingredient].buckets.None? {
        return Err(MissingKey(ingredient, "recette"));
      }
      StepUnfold(ProdDialect, matieres, store, rank, ingredient, table, i, q, Visit(prix, recetteIngredients, ingredients),
                 source, alias, quantity);
      r := DetailShare(rank, store, ingredient, source, alias, quantity, prix, recetteIngredients);
    }

    /** The end of a component's turn: its share `quantity` is added to the
        bucket `alias` and the component `source` is detailed for it. */
    method DetailShare(ghost rank: map<Name, nat>, ghost store: map<Name, Json>, ingredient: Name,
                       source: Name, alias: Name, quantity: real, prix: real, recetteIngredients: map<Name, real>)
      returns (r: Result<(real, map<Name, real>)>)
      requires cache.Valid() && Shows(cache.cache, cache.files, store) && Ranked(ProdDialect, store, rank)
      requires ingredient in ingredients && ingredients[ingredient].buckets.Some?
      requires Rank(rank, source) < Rank(rank, ingredient)
      modifies this`ingredients, cache
      ensures cache.Valid() && Shows(cache.cache, cache.files, store)
      ensures var merged := Merge(old(ingredients), ingredient, alias, quantity);
        var sub := Resolve(ProdDialect, matieres, store, rank, source, quantity, merged);
        && r == Outcome(Extend(Visit(prix, recetteIngredients, old(ingredients)), alias, quantity, sub))
        && (sub.Ok? ==>
              && ingredients == sub.value.table
              && cache.cache.Keys == old(cache.cache).Keys + Reached(ProdDialect, matieres, store, rank, source, quantity, merged))
      decreases Rank(rank, ingredient), 0
    {
      ingredients := Merge(ingredients, ingredient, alias, quantity);
      var sub := Detail(rank, store, source, quantity);
      if sub.Err? {
        return Err(sub.error);
      }
      return Ok((prix + sub.value.0, recetteIngredients[alias := quantity]));
    }

    /** One line of `touille`'s loop: the product file is read through the
        cache, the product's placeholder written, its recipe detailed for the
        order's dough and its record completed. */
    method Product(ghost rank: map<Name, nat>, produit: Name, quantite: Json) returns (r: Result<()>)
      requires cache.Valid() && RankedFiles(cache.files, rank) && Ranked(ProdDialect, cache.cache, rank)
      modifies this`ingredients, cache
      ensures cache.Valid() && Ranked(ProdDialect, cache.cache, rank)
      ensures var p := Produce(cache.files, rank, matieres, general, State(old(cache.cache), old(ingredients)), produit, quantite);
        && r.Ok? == p.Ok?
        && (p.Err? ==> r.error == p.error)
        && (p.Ok? ==> State(cache.cache, ingredients) == p.value)
    {
      ghost var c0 := cache.cache;
      var infos := cache.LoadJson("produits", produit);
      if infos.Err? {
        return Err(infos.error);
      }
      ingredients := ingredients[produit := Entry(None, map[])];
      var poidsPaton := NumberAt(infos.value, produit, "poids-paton");
      if poidsPaton.Err? {
        return Err(poidsPaton.error);
      }
      if !quantite.Num? {
        return Err(WrongType(produit));
      }
      var tauxPerte := NumberOr(infos.value, produit, "taux-perte", 1.0);
      var recette := StringAt(infos.value, produit, "recette");
      if recette.Err? {
        return Err(recette.error);
      }
      if tauxPerte.Err? {
        return Err(tauxPerte.error);
      }
      RememberRanked(c0, cache.files, "produits", produit, rank);
      r := ProductRecipe(rank, produit, infos.value, quantite.n, poidsPaton.value, tauxPerte.value, recette.value);
    }

    /** The order line once the product file is read: `detail` on the recipe
        for the dough, then the record. */
    method ProductRecipe(ghost rank: map<Name, nat>, produit: Name, infos: Json, quantite: real,
                         poidsPaton: real, tauxPerte: real, recette: Name) returns (r: Result<()>)
      requires cache.Valid() && RankedFiles(cache.files, rank) && Ranked(ProdDialect, cache.cache, rank)
      requires produit in ingredients
      modifies this`ingredients, cache
      ensures cache.Valid() && Ranked(ProdDialect, cache.cache, rank)
      ensures var p := ProduceRecipe(cache.files, rank, matieres, general, old(cache.cache), old(ingredients),
                                     produit, infos, quantite, poidsPaton, tauxPerte, recette);
        && r.Ok? == p.Ok?
        && (p.Err? ==> r.error == p.error)
        && (p.Ok? ==> State(cache.cache, ingredients) == p.value)
    {
      ghost var c := cache.cache;
      ViewRanked(c, cache.files, "recettes", rank);
      ghost var store := View(c, cache.files, "recettes");
      ShowsView(c, cache.files);
      var poids := Dough(quantite, poidsPaton, tauxPerte);
      var detail := Detail(rank, store, recette, poids);
      if detail.Err? {
        return Err(detail.error);
      }
      ShowsRestrict(cache.cache, cache.files, store);
      r := ProductRecord(produit, infos, quantite, poidsPaton, detail.value.0, detail.value.1);
    }

    /** The end of an order line: the product's entry gets its recipe, its
        count and its dough weight, and with a selling price the price of a
        piece and the gross margin rate. */
    method ProductRecord(produit: Name, infos: Json, quantite: real, poidsPaton: real, prix: real,
                         recette: map<Name, real>) returns (r: Result<()>)
      requires produit in ingredients
      modifies this`ingredients
      ensures var done := Complete(old(ingredients), produit, recette, prix, infos, general, quantite, poidsPaton);
        && r.Ok? == done.Ok?
        && (done.Err? ==> r.error == done.error)
        && (done.Ok? ==> ingredients == done.value)
    {
      var e := ingredients[produit];
      var record := e.(buckets := Some(recette), fields := e.fields["quantite" := quantite]["poids-paton" := poidsPaton]);
      if HasKey(infos, "prix-de-vente-1kg-ttc") {
        var vente := NumberAt(infos, produit, "prix-de-vente-1kg-ttc");
        var cuit := NumberAt(infos, produit, "poids-pain-cuit");
        var tva := NumberAt(general, "general", "tva");
        if vente.Err? {
          return Err(vente.error);
        }
        if cuit.Err? {
          return Err(cuit.error);
        }
        if tva.Err? {
          return Err(tva.error);
        }
        var marge := Margins(produit, vente.value, cuit.value, tva.value, prix, quantite);
        if marge.Err? {
          return Err(marge.error);
        }
        record := record.(fields := record.fields["prix-de-vente-piece-ttc" := marge.value.pieceInclTax]
                                                 ["taux-marge-brute" := marge.value.rate]);
      }
      ingredients := ingredients[produit := record];
      return Ok(());
    }

    /** `touille(matieres, commandes, general)`: the order file, the raw
        materials and the general settings are read through the cache into
        the fields, then every order line is produced in the file's order. */
    method Touille(ghost rank: map<Name, nat>, matieresFile: string, commandesFile: string, generalFile: string)
      returns (r: Result<()>)
      requires cache.Valid() && RankedFiles(cache.files, rank) && Ranked(ProdDialect, cache.cache, rank)
      modifies this`ingredients, this`matieres, this`commandes, this`general, cache
      ensures cache.Valid() && Ranked(ProdDialect, cache.cache, rank)
      ensures var p := Stir(cache.files, rank, State(old(cache.cache), old(ingredients)), matieresFile, commandesFile, generalFile);
        && r.Ok? == p.Ok?
        && (p.Err? ==> r.error == p.error)
        && (p.Ok? ==> State(cache.cache, ingredients) == p.value)
      ensures r.Ok? ==> Reads(cache.files, old(cache.cache), matieresFile, commandesFile, generalFile) == Ok((matieres, commandes, general))
    {
      var loaded := LoadFiles(rank, matieresFile, commandesFile, generalFile);
      if loaded.Err? {
        return Err(loaded.error);
      }
      r := Products(rank, commandes.members);
    }

    /** The first lines of `touille`: the three files read through the cache
        into the fields, and the order file checked to be a mapping. What is
        left of `Stir` is then the loop over the order lines. */
    method LoadFiles(ghost rank: map<Name, nat>, matieresFile: string, commandesFile: string, generalFile: string)
      returns (r: Result<()>)
      requires cache.Valid() && RankedFiles(cache.files, rank) && Ranked(ProdDialect, cache.cache, rank)
      modifies this`matieres, this`commandes, this`general, cache
      ensures cache.Valid() && Ranked(ProdDialect, cache.cache, rank)
      ensures var p := Stir(cache.files, rank, State(old(cache.cache), ingredients), matieresFile, commandesFile, generalFile);
        && (r.Err? ==> p == Err(r.error))
        && (r.Ok? ==> commandes.Obj? && p == ProduceAll(cache.files, rank, matieres, general, State(cache.cache, ingredients), commandes.members, 0))
      ensures r.Ok? ==> Reads(cache.files, old(cache.cache), matieresFile, commandesFile, generalFile) == Ok((matieres, commandes, general))
    {
      ghost var c0 := cache.cache;
      var loaded := cache.LoadJson("commandes", commandesFile);
      if loaded.Err? {
        return Err(loaded.error);
      }
      commandes := loaded.value;
      ghost var c1 := cache.cache;
      var materials := cache.LoadJson("matieres-premieres", matieresFile);
      if materials.Err? {
        return Err(materials.error);
      }
      ghost var c2 := cache.cache;
      var settings := cache.LoadJson(".", generalFile);
      if settings.Err? {
        return Err(settings.error);
      }
      general := settings.value;
      if !commandes.Obj? {
        return Err(WrongType(commandesFile));
      }
      var catalog := AsMap(materials.value, matieresFile);
      if catalog.Err? {
        return Err(catalog.error);
      }
      matieres := catalog.value;
      RememberRanked(c0, cache.files, "commandes", commandesFile, rank);
      RememberRanked(c1, cache.files, "matieres-premieres", matieresFile, rank);
      RememberRanked(c2, cache.files, ".", generalFile, rank);
      return Ok(());
    }

    /** The loop of `touille` over the order lines `items`. */
    method Products(ghost rank: map<Name, nat>, items: seq<(string, Json)>) returns (r: Result<()>)
      requires cache.Valid() && RankedFiles(cache.files, rank) && Ranked(ProdDialect, cache.cache, rank)
      modifies this`ingredients, cache
      ensures cache.Valid() && Ranked(ProdDialect, cache.cache, rank)
      ensures var p := ProduceAll(cache.files, rank, matieres, general, State(old(cache.cache), old(ingredients)), items, 0);
        && r.Ok? == p.Ok?
        && (p.Err? ==> r.error == p.error)
        && (p.Ok? ==> State(cache.cache, ingredients) == p.value)
    {
      ghost var s0 := State(cache.cache, ingredients);
      var i := 0;
      while i < |items|
        invariant 0 <= i <= |items|
        invariant cache.Valid() && Ranked(ProdDialect, cache.cache, rank)
        invariant ProduceAll(cache.files, rank, matieres, general, s0, items, 0)
               == ProduceAll(cache.files, rank, matieres, general, State(cache.cache, ingredients), items, i)
      {
        var produced := Product(rank, items[i].0, items[i].1);
        if produced.Err? {
          return Err(produced.error);
        }
        i := i + 1;
      }
      return Ok(());
    }
  }

  /** The program: one cache and one `Touille` for the whole run, and
      `touille` on each order file with the raw materials `matieresFile`
      and the settings `general`; the result is the table it prints. */
  method Run(files: Files, ghost rank: map<Name, nat>, matieresFile: string, commandesFiles: seq<string>)
    returns (r: Result<Aggregates>)
    requires RankedFiles(files, rank)
    ensures var p := StirAll(files, rank, State(map[], map[]), matieresFile, commandesFiles);
      && r.Ok? == p.Ok?
      && (p.Err? ==> r.error == p.error)
      && (p.Ok? ==> r.value == p.value.ingredients)
  {
    var cache := new CacheJson(files);
    var touille := new Touille(cache);
    ghost var s0 := State(map[], map[]);
    var i := 0;
    while i < |commandesFiles|
      invariant 0 <= i <= |commandesFiles|
      invariant touille.cache == cache && cache.files == files && cache.Valid()
      invariant Ranked(ProdDialect, cache.cache, rank)
      invariant StirAll(files, rank, s0, matieresFile, commandesFiles)
             == StirAll(files, rank, State(cache.cache, touille.ingredients), matieresFile, commandesFiles[i..])
    {
      assert commandesFiles[i..][1..] == commandesFiles[i + 1..];
      var stirred := touille.Touille(rank, matieresFile, commandesFiles[i], "general");
      if stirred.Err? {
        return Err(stirred.error);
      }
      i := i + 1;
    }
    return Ok(touille.ingredients);
  }
}
