/** The orders loop of main.py, calcule.py and cook-recipes.py: every order
    file names products and counts; each product with a nonzero count is
    resolved for its dough and given a record with its cost and margin. The
    three copies differ only in the points a `Layout` records. */
module Orders {
  import opened Data
  import opened Sums
  import opened Resolver
  import opened ResolverFacts
  import opened Loading
  import opened Pricing

  /** What distinguishes one copy of the orders loop from another. */
  datatype Layout = Layout(
    dialect: Dialect,
    sellingKey: string,           // product key holding the selling price per kilogram including tax
    rootRecord: bool,             // the record's recipe is {root: weight}, not the root's direct children
    sellField: Option<string>,    // record field copying the selling price per kilogram
    pieceInclField: string,       // record field of the selling price per piece including tax
    pieceExclField: Option<string>, // record field of the selling price per piece excluding tax
    costField: string,            // record field of the cost per piece
    marginField: string,          // record field of the gross margin rate
    loadsColors: bool,            // the run also opens the colours file
    lossFirst: bool)              // the loss rate is multiplied in before the recipe name is read

  /** The two tables a run fills: the aggregation table of the recipes and the
      records of the products. */
  datatype Books = Books(recipes: Aggregates, products: map<Name, Entry>)

  /** The record fields a layout writes are distinct from one another and
      from `quantity` and `dough_weight`. */
  predicate Separate(l: Layout) {
    var written := {l.pieceInclField, l.costField, l.marginField};
    && "quantity" !in written && "dough_weight" !in written
    && l.pieceInclField != l.costField && l.pieceInclField != l.marginField && l.costField != l.marginField
    && (l.sellField.Some? ==> l.sellField.value !in written + {"quantity", "dough_weight"})
    && (l.pieceExclField.Some? ==> l.pieceExclField.value !in written + {"quantity", "dough_weight"})
    && (l.sellField.Some? && l.pieceExclField.Some? ==> l.sellField.value != l.pieceExclField.value)
  }

  /** The figures of a sale: the margin of a product that has a selling price,
      from its selling price, its baked weight and the tax factor. */
  function Sale(l: Layout, product: Json, name: Name, general: Json, count: real, price: real): (r: Result<Margin>) {
    var sell :- NumberAt(product, name, l.sellingKey);
    var baked :- NumberAt(product, name, "bread_baked_weight");
    var vat :- NumberAt(general, "general", "vat");
    Margins(name, sell, baked, vat, price, count)
  }

  /** The numeric fields of a product record, written in the programs' order:
      the count and the dough weight, then the figures of the sale. */
  function Fields(l: Layout, product: Json, name: Name, general: Json, count: real, dough: real, price: real)
    : (r: Result<map<string, real>>)
    ensures !HasKey(product, l.sellingKey) ==> r == Ok(map["quantity" := count, "dough_weight" := dough])
    ensures HasKey(product, l.sellingKey) ==> (r.Ok? <==> Sale(l, product, name, general, count, price).Ok?)
  {
    var base := map["quantity" := count, "dough_weight" := dough];
    if !HasKey(product, l.sellingKey) then Ok(base)
    else
      var m :- Sale(l, product, name, general, count, price);
      var sell := NumberAt(product, name, l.sellingKey).value;
      var withSell := match l.sellField case Some(f) => base[f := sell] case None => base;
      var withPiece := withSell[l.pieceInclField := m.pieceInclTax];
      var withExcl := match l.pieceExclField case Some(f) => withPiece[f := m.pieceExclTax] case None => withPiece;
      Ok(withExcl[l.costField := m.costPerPiece][l.marginField := m.rate])
  }

  /** The field name an optional field of a layout contributes. */
  function Named(field: Option<string>): set<string> {
    match field case Some(f) => {f} case None => {}
  }

  /** A product record holds exactly its count and dough weight and, when the
      product has a selling price, the fields of the sale: the selling price
      per kilogram and the price per piece without tax where the layout
      writes them, the price per piece, and the cost per piece and margin
      rate, which give back the order's cost and the cost per piece. */
  lemma RecordFields(l: Layout, product: Json, name: Name, general: Json, count: real, dough: real, price: real)
    requires Separate(l) && Fields(l, product, name, general, count, dough, price).Ok?
    ensures var f := Fields(l, product, name, general, count, dough, price).value;
      && "quantity" in f && f["quantity"] == count && "dough_weight" in f && f["dough_weight"] == dough
    ensures var f := Fields(l, product, name, general, count, dough, price).value;
      f.Keys == {"quantity", "dough_weight"}
        + (if HasKey(product, l.sellingKey)
           then {l.pieceInclField, l.costField, l.marginField} + Named(l.sellField) + Named(l.pieceExclField)
           else {})
    ensures var f := Fields(l, product, name, general, count, dough, price).value;
      HasKey(product, l.sellingKey) && l.sellField.Some? ==>
        l.sellField.value in f && f[l.sellField.value] == NumberAt(product, name, l.sellingKey).value
    ensures var f := Fields(l, product, name, general, count, dough, price).value;
      HasKey(product, l.sellingKey) && l.pieceExclField.Some? ==>
        l.pieceExclField.value in f && f[l.pieceExclField.value] == Sale(l, product, name, general, count, price).value.pieceExclTax
    ensures var f := Fields(l, product, name, general, count, dough, price).value;
      HasKey(product, l.sellingKey) ==>
        && var m := Sale(l, product, name, general, count, price).value;
        && l.costField in f && l.marginField in f && l.pieceInclField in f
        && f[l.pieceInclField] == m.pieceInclTax
        && f[l.costField] * count == price && f[l.costField] == price / count
        && f[l.costField] == m.pieceExclTax * (1.0 - f[l.marginField] / 100.0)
  {
    if HasKey(product, l.sellingKey) {
      var sell := NumberAt(product, name, l.sellingKey).value;
      var baked := NumberAt(product, name, "bread_baked_weight").value;
      var vat := NumberAt(general, "general", "vat").value;
      MarginRecoversCost(name, sell, baked, vat, price, count);
    }
  }

  /** One order line: `count` pieces of product `name`. */
  ghost function Order(l: Layout, files: Files, catalog: map<Name, Json>, general: Json,
                       rank: map<Name, nat>, s: Books, name: Name, count: Json): (r: Result<Books>)
    requires Ranked(l.dialect, Directory(files, "recipes"), rank)
  {
    if count == Num(0.0) then Ok(s)
    else
      var product := Load(files, "products", name);
      if product.Err? then Err(product.error)
      else
        var dough := NumberAt(product.value, name, "dough_weight");
        var loss := NumberOr(product.value, name, "loss_rate", 1.0);
        var root := StringAt(product.value, name, "recipe");
        if dough.Err? then Err(dough.error)
        else if !count.Num? then Err(WrongType(name))
        else if l.lossFirst && loss.Err? then Err(loss.error)
        else if root.Err? then Err(root.error)
        else if loss.Err? then Err(loss.error)
        else
          var weight := Dough(count.n, dough.value, loss.value);
          var v := Resolve(l.dialect, catalog, Directory(files, "recipes"), rank, root.value, weight, s.recipes);
          if v.Err? then Err(v.error)
          else
            var fields := Fields(l, product.value, name, general, count.n, dough.value, v.value.cost);
            if fields.Err? then Err(fields.error)
            else
              var recipe := if l.rootRecord then map[root.value := weight] else v.value.children;
              Ok(Books(v.value.table, s.products[name := Entry(Some(recipe), fields.value)]))
  }

  /** The lines of one order file, in order. */
  ghost function OrderItems(l: Layout, files: Files, catalog: map<Name, Json>, general: Json,
                            rank: map<Name, nat>, s: Books, items: seq<(string, Json)>): (r: Result<Books>)
    requires Ranked(l.dialect, Directory(files, "recipes"), rank)
    decreases |items|
  {
    if |items| == 0 then Ok(s)
    else
      var next :- Order(l, files, catalog, general, rank, s, items[0].0, items[0].1);
      OrderItems(l, files, catalog, general, rank, next, items[1..])
  }

  /** One order file. */
  ghost function OrderFile(l: Layout, files: Files, catalog: map<Name, Json>, general: Json,
                           rank: map<Name, nat>, s: Books, file: string): (r: Result<Books>)
    requires Ranked(l.dialect, Directory(files, "recipes"), rank)
  {
    var orders :- Load(files, "orders", file);
    if !orders.Obj? then Err(WrongType(file))
    else OrderItems(l, files, catalog, general, rank, s, orders.members)
  }

  /** The order files, in order. */
  ghost function OrderFiles(l: Layout, files: Files, catalog: map<Name, Json>, general: Json,
                            rank: map<Name, nat>, s: Books, orderFiles: seq<string>): (r: Result<Books>)
    requires Ranked(l.dialect, Directory(files, "recipes"), rank)
    decreases |orderFiles|
  {
    if |orderFiles| == 0 then Ok(s)
    else
      var next :- OrderFile(l, files, catalog, general, rank, s, orderFiles[0]);
      OrderFiles(l, files, catalog, general, rank, next, orderFiles[1..])
  }

  /** A whole run, from empty tables. */
  ghost function Run(l: Layout, files: Files, rank: map<Name, nat>, ingredientsFile: string,
                     orderFiles: seq<string>): (r: Result<Books>)
    requires Ranked(l.dialect, Directory(files, "recipes"), rank)
  {
    var general :- Load(files, ".", "general");
    var colors :- if l.loadsColors then Load(files, ".", "colors") else Ok(Other);
    var ingredients :- Load(files, "ingredients", ingredientsFile);
    var catalog :- AsMap(ingredients, ingredientsFile);
    OrderFiles(l, files, catalog, general, rank, Books(map[], map[]), orderFiles)
  }

  /** An order line touches only its own product's record, and the
      aggregation table only gains entries; a zero count changes nothing. */
  lemma OrderFrame(l: Layout, files: Files, catalog: map<Name, Json>, general: Json,
                   rank: map<Name, nat>, s: Books, name: Name, count: Json)
    requires Ranked(l.dialect, Directory(files, "recipes"), rank)
    requires Order(l, files, catalog, general, rank, s, name, count).Ok?
    ensures count == Num(0.0) ==> Order(l, files, catalog, general, rank, s, name, count).value == s
    ensures var s' := Order(l, files, catalog, general, rank, s, name, count).value;
      && s.recipes.Keys <= s'.recipes.Keys
      && s'.products.Keys == s.products.Keys + (if count == Num(0.0) then {} else {name})
      && forall p :: p in s.products && p != name ==> s'.products[p] == s.products[p]
  {
  }

  /** A successful order line with a nonzero count: the product file read,
      its recipe resolved for the order's dough, its record written. */
  lemma OrderOk(l: Layout, files: Files, catalog: map<Name, Json>, general: Json,
                rank: map<Name, nat>, s: Books, name: Name, count: Json)
    requires Ranked(l.dialect, Directory(files, "recipes"), rank)
    requires count != Num(0.0) && Order(l, files, catalog, general, rank, s, name, count).Ok?
    ensures count.Num? && ("products", name) in files
    ensures var product := files[("products", name)];
      && NumberAt(product, name, "dough_weight").Ok? && NumberOr(product, name, "loss_rate", 1.0).Ok?
      && StringAt(product, name, "recipe").Ok?
      && var weight := Dough(count.n, NumberAt(product, name, "dough_weight").value, NumberOr(product, name, "loss_rate", 1.0).value);
      && var root := StringAt(product, name, "recipe").value;
      && var v := Resolve(l.dialect, catalog, Directory(files, "recipes"), rank, root, weight, s.recipes);
      && v.Ok?
      && var fields := Fields(l, product, name, general, count.n, NumberAt(product, name, "dough_weight").value, v.value.cost);
      && fields.Ok?
      && Order(l, files, catalog, general, rank, s, name, count).value
         == Books(v.value.table, s.products[name := Entry(Some(if l.rootRecord then map[root := weight] else v.value.children), fields.value)])
  {
  }

  /** The record an order line with a nonzero count leaves for its product:
      its recipe, its count and its dough weight. */
  lemma OrderRecord(l: Layout, files: Files, catalog: map<Name, Json>, general: Json,
                    rank: map<Name, nat>, s: Books, name: Name, count: Json)
    requires Ranked(l.dialect, Directory(files, "recipes"), rank) && Separate(l)
    requires count != Num(0.0) && Order(l, files, catalog, general, rank, s, name, count).Ok?
    ensures count.Num? && ("products", name) in files
    ensures var product := files[("products", name)];
      var dough := NumberAt(product, name, "dough_weight").value;
      var weight := Dough(count.n, dough, NumberOr(product, name, "loss_rate", 1.0).value);
      var root := StringAt(product, name, "recipe").value;
      var e := Order(l, files, catalog, general, rank, s, name, count).value.products[name];
      && e.buckets.Some? && (l.rootRecord ==> e.buckets.value == map[root := weight])
      && "quantity" in e.fields && e.fields["quantity"] == count.n
      && "dough_weight" in e.fields && e.fields["dough_weight"] == dough
  {
    OrderOk(l, files, catalog, general, rank, s, name, count);
    var product := files[("products", name)];
    var dough := NumberAt(product, name, "dough_weight").value;
    var weight := Dough(count.n, dough, NumberOr(product, name, "loss_rate", 1.0).value);
    var root := StringAt(product, name, "recipe").value;
    var v := Resolve(l.dialect, catalog, Directory(files, "recipes"), rank, root, weight, s.recipes).value;
    RecordFields(l, product, name, general, count.n, dough, v.cost);
  }

  /** When the product has a selling price, the record's cost per piece,
      times the count, gives back the reference cost of the product's recipe
      for the order's dough. */
  lemma OrderCost(l: Layout, files: Files, catalog: map<Name, Json>, general: Json,
                  rank: map<Name, nat>, s: Books, name: Name, count: Json)
    requires Ranked(l.dialect, Directory(files, "recipes"), rank) && Separate(l)
    requires count != Num(0.0) && Order(l, files, catalog, general, rank, s, name, count).Ok?
    requires ("products", name) in files && HasKey(files[("products", name)], l.sellingKey)
    ensures count.Num?
    ensures var product := files[("products", name)];
      var weight := Dough(count.n, NumberAt(product, name, "dough_weight").value, NumberOr(product, name, "loss_rate", 1.0).value);
      var root := StringAt(product, name, "recipe").value;
      var e := Order(l, files, catalog, general, rank, s, name, count).value.products[name];
      && l.costField in e.fields
      && e.fields[l.costField] == CostOf(l.dialect, catalog, Directory(files, "recipes"), rank, root, weight) / count.n
  {
    OrderOk(l, files, catalog, general, rank, s, name, count);
    var product := files[("products", name)];
    var dough := NumberAt(product, name, "dough_weight").value;
    var weight := Dough(count.n, dough, NumberOr(product, name, "loss_rate", 1.0).value);
    var root := StringAt(product, name, "recipe").value;
    var store := Directory(files, "recipes");
    var v := Resolve(l.dialect, catalog, store, rank, root, weight, s.recipes).value;
    var f := Fields(l, product, name, general, count.n, dough, v.cost).value;
    var e := Order(l, files, catalog, general, rank, s, name, count).value.products[name];
    assert e.fields == f;
    RecordFields(l, product, name, general, count.n, dough, v.cost);
    assert f[l.costField] == v.cost / count.n;
    ResolveCost(l.dialect, catalog, store, rank, root, weight, s.recipes);
  }

  /** An order line keeps every recipe entry consistent. */
  lemma OrderConsistent(l: Layout, files: Files, catalog: map<Name, Json>, general: Json,
                        rank: map<Name, nat>, s: Books, name: Name, count: Json)
    requires Ranked(l.dialect, Directory(files, "recipes"), rank) && AllConsistent(l.dialect, s.recipes)
    requires Order(l, files, catalog, general, rank, s, name, count).Ok?
    ensures AllConsistent(l.dialect, Order(l, files, catalog, general, rank, s, name, count).value.recipes)
  {
    if count != Num(0.0) {
      var product := files[("products", name)];
      var weight := Dough(count.n, NumberAt(product, name, "dough_weight").value, NumberOr(product, name, "loss_rate", 1.0).value);
      var root := StringAt(product, name, "recipe").value;
      StaysConsistent(l.dialect, catalog, Directory(files, "recipes"), rank, root, weight, s.recipes);
    }
  }

  lemma {:induction false} ItemsConsistent(l: Layout, files: Files, catalog: map<Name, Json>, general: Json,
                                           rank: map<Name, nat>, s: Books, items: seq<(string, Json)>)
    requires Ranked(l.dialect, Directory(files, "recipes"), rank) && AllConsistent(l.dialect, s.recipes)
    requires OrderItems(l, files, catalog, general, rank, s, items).Ok?
    ensures AllConsistent(l.dialect, OrderItems(l, files, catalog, general, rank, s, items).value.recipes)
    decreases |items|
  {
    if |items| > 0 {
      OrderConsistent(l, files, catalog, general, rank, s, items[0].0, items[0].1);
      var next := Order(l, files, catalog, general, rank, s, items[0].0, items[0].1).value;
      ItemsConsistent(l, files, catalog, general, rank, next, items[1..]);
    }
  }

  lemma {:induction false} FilesConsistent(l: Layout, files: Files, catalog: map<Name, Json>, general: Json,
                                           rank: map<Name, nat>, s: Books, orderFiles: seq<string>)
    requires Ranked(l.dialect, Directory(files, "recipes"), rank) && AllConsistent(l.dialect, s.recipes)
    requires OrderFiles(l, files, catalog, general, rank, s, orderFiles).Ok?
    ensures AllConsistent(l.dialect, OrderFiles(l, files, catalog, general, rank, s, orderFiles).value.recipes)
    decreases |orderFiles|
  {
    if |orderFiles| > 0 {
      var orders := files[("orders", orderFiles[0])];
      ItemsConsistent(l, files, catalog, general, rank, s, orders.members);
      var next := OrderFile(l, files, catalog, general, rank, s, orderFiles[0]).value;
      FilesConsistent(l, files, catalog, general, rank, next, orderFiles[1..]);
    }
  }

  /** At the end of a run every recipe's total weight is the sum of its
      buckets. */
  lemma RunConsistent(l: Layout, files: Files, rank: map<Name, nat>, ingredientsFile: string,
                      orderFiles: seq<string>)
    requires Ranked(l.dialect, Directory(files, "recipes"), rank)
    requires Run(l, files, rank, ingredientsFile, orderFiles).Ok?
    ensures AllConsistent(l.dialect, Run(l, files, rank, ingredientsFile, orderFiles).value.recipes)
  {
    var general := files[(".", "general")];
    var catalog := AsMap(files[("ingredients", ingredientsFile)], ingredientsFile).value;
    FilesConsistent(l, files, catalog, general, rank, Books(map[], map[]), orderFiles);
  }

  /** The body of the inner loop of `main`. */
  method PlaceOrder(l: Layout, files: Files, catalog: map<Name, Json>, general: Json,
                    ghost rank: map<Name, nat>, s: Books, name: Name, count: Json)
    returns (r: Result<Books>)
    requires Ranked(l.dialect, Directory(files, "recipes"), rank)
    ensures r == Order(l, files, catalog, general, rank, s, name, count)
  {
    if count == Num(0.0) {
      return Ok(s);
    }
    var product := Load(files, "products", name);
    if product.Err? {
      return Err(product.error);
    }
    var dough := NumberAt(product.value, name, "dough_weight");
    if dough.Err? {
      return Err(dough.error);
    }
    if !count.Num? {
      return Err(WrongType(name));
    }
    var loss := NumberOr(product.value, name, "loss_rate", 1.0);
    if l.lossFirst && loss.Err? {
      return Err(loss.error);
    }
    var root := StringAt(product.value, name, "recipe");
    if root.Err? {
      return Err(root.error);
    }
    if loss.Err? {
      return Err(loss.error);
    }
    var weight := Dough(count.n, dough.value, loss.value);
    var v := FollowRecipe(l.dialect, catalog, Directory(files, "recipes"), rank, s.recipes, root.value, weight);
    if v.Err? {
      return Err(v.error);
    }
    var fields := Fields(l, product.value, name, general, count.n, dough.value, v.value.cost);
    if fields.Err? {
      return Err(fields.error);
    }
    var recipe := if l.rootRecord then map[root.value := weight] else v.value.children;
    return Ok(Books(v.value.table, s.products[name := Entry(Some(recipe), fields.value)]));
  }

  /** The inner loop of `main`, over the lines of one order file. */
  method PlaceOrders(l: Layout, files: Files, catalog: map<Name, Json>, general: Json,
                     ghost rank: map<Name, nat>, s: Books, file: string)
    returns (r: Result<Books>)
    requires Ranked(l.dialect, Directory(files, "recipes"), rank)
    ensures r == OrderFile(l, files, catalog, general, rank, s, file)
  {
    var orders := Load(files, "orders", file);
    if orders.Err? {
      return Err(orders.error);
    }
    if !orders.value.Obj? {
      return Err(WrongType(file));
    }
    var items := orders.value.members;
    var books := s;
    var k := 0;
    while k < |items|
      invariant k <= |items|
      invariant OrderItems(l, files, catalog, general, rank, s, items)
             == OrderItems(l, files, catalog, general, rank, books, items[k..])
    {
      assert items[k..][1..] == items[k + 1..];
      var next := PlaceOrder(l, files, catalog, general, rank, books, items[k].0, items[k].1);
      if next.Err? {
        return Err(next.error);
      }
      books := next.value;
      k := k + 1;
    }
    return Ok(books);
  }

  /** `main`: loads the general settings and the base ingredients, then takes
      the order files in turn. */
  method RunOrders(l: Layout, files: Files, ghost rank: map<Name, nat>, ingredientsFile: string,
                   orderFiles: seq<string>)
    returns (r: Result<Books>)
    requires Ranked(l.dialect, Directory(files, "recipes"), rank)
    ensures r == Run(l, files, rank, ingredientsFile, orderFiles)
  {
    var general := Load(files, ".", "general");
    if general.Err? {
      return Err(general.error);
    }
    if l.loadsColors {
      var colors := Load(files, ".", "colors");
      if colors.Err? {
        return Err(colors.error);
      }
    }
    var ingredients := Load(files, "ingredients", ingredientsFile);
    if ingredients.Err? {
      return Err(ingredients.error);
    }
    var catalog := AsMap(ingredients.value, ingredientsFile);
    if catalog.Err? {
      return Err(catalog.error);
    }
    var books := Books(map[], map[]);
    var f := 0;
    while f < |orderFiles|
      invariant f <= |orderFiles|
      invariant Run(l, files, rank, ingredientsFile, orderFiles)
             == OrderFiles(l, files, catalog.value, general.value, rank, books, orderFiles[f..])
    {
      assert orderFiles[f..][1..] == orderFiles[f + 1..];
      var next := PlaceOrders(l, files, catalog.value, general.value, rank, books, orderFiles[f]);
      if next.Err? {
        return Err(next.error);
      }
      books := next.value;
      f := f + 1;
    }
    return Ok(books);
  }
}
