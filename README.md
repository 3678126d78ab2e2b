# cook-recipes, modelled in Dafny

cook-recipes is a bakery production planner. Recipes are weight tables. A
component of a recipe is either a base ingredient with a unit price or
another recipe. Order files say how many pieces of each product to bake. For
each ordered product the programs work out the dough it needs. They then walk
its recipe tree: each component gets its share of the quantity, the cost of
the base ingredients is added up, and every recipe visited gets an
aggregation entry. That entry holds its buckets (display name to absolute
quantity) and the sum of those buckets. The product then gets a record with
its count and dough weight. A product with a selling price also gets the
price of a piece and the gross margin rate. In the three YAML programs it
also gets the cost per piece.

The repository has four copies of this logic:

- `main.py`, `calcule.py` and `cook-recipes.py` read YAML files;
- `prod.py` reads JSON files through a memoising cache, `CacheJson`, and keeps
  its state in the fields of a class, `Touille`.

The model has these modules:

- `Data`: parsed configuration values (`Json`), the error outcomes that end a
  run, and Python's `j[key]`, `j.get(key, default)` and `key in j`.
- `Text`: `str.split`, `str.startswith` and the facts about splitting a
  component key.
- `Sums`: the weight sum of a recipe, the sum of a bucket mapping, the bucket
  merge and a loop that computes the sum.
- `Loading`: the files as an oracle map from (directory, basename) to
  contents, `load_yaml`, and `CacheJson` with `load_json` as a class over a
  `cache` map field.
- `Resolver`: `follow_recipe` and `Touille.detail` as one specification.
  - `Resolve`, `Components` and `Step` are ghost functions.
  - They are parameterised by a `Dialect`: the key separator, the rule for a
    key that does not split in two, whether `-` keys are skipped, and the
    field names.
  - `FollowRecipe` and `FollowComponent` are the imperative resolver, proved
    equal to that specification.
- `ResolverFacts`: what a visit does to the table (frames, buckets, totals,
  direct children) and what it costs (a reference cost that ignores the
  table, and its linearity).
- `Pricing`: the dough weight and the margin arithmetic.
- `Orders`: the `main` loop of the three YAML programs, parameterised by a
  `Layout` (the field names and the points where the copies differ). It has a
  ghost specification (`Order` … `Run`) and the imperative loops proved
  against it.
- `Prod`: `prod.py`.
  - `Touille` is a class whose `ingredients` field is updated in place and
    whose files are read through the `CacheJson` instance.
  - `detail` is proved against `Resolve`, with the recipes seen through the
    cache.
  - `touille` and the program's loop are proved against a ghost
    specification (`Produce`, `ProduceAll`, `Stir`, `StirAll`).
- `Programs`: the three YAML dialects and layouts and their key-splitting
  rules.

Floating-point numbers are modelled as `real`. The recipe graph is assumed
acyclic, and this is stated as a rank that every component has below its
recipe (`Resolver.Ranked`, `Prod.RankedFiles`). The programs do not check
this.

Where the code evaluates something before raising, the model keeps the same
order of error checks. Two cases show this:

- In `calcule.py:92-96` the product's `recipe` key is looked up before the
  weight is multiplied by the loss rate. In `main.py:114-117` it is looked up
  after. `Layout.lossFirst` records this.
- In `prod.py:90-93` `poids-paton` is read before the count is multiplied,
  which is before `recette` is read, which is before the loss rate is
  multiplied in.

## Model

| member | source | states |
|---|---|---|
| Data.Lookup | prod.py:46-47 | the value is found exactly when some item carries the key, and it is that item's value |
| Data.NumberAt | main.py:114 | `j[key]` succeeds exactly when `j` is a mapping whose value under `key` is a number, returns that number, and a missing key is a `MissingKey` error |
| Data.NumberOr | main.py:115 | `j.get(key, default)` is the default when the key is absent and the keyed value otherwise |
| Data.StringAt | main.py:117 | `j[key]` as a recipe name succeeds exactly when the value under `key` is a string, and returns it |
| Text.Split | calcule.py:36 | the definition of `str.split(sep)`; its properties are `Text.JoinSplit`, `Text.SplitCount`, `Text.SplitSingle` and `Text.SplitPair` |
| Text.StartsWith | prod.py:62 | the definition of `str.startswith`; `Programs.ProdKeys` ties it to the keys `detail` skips |
| Text.JoinSplit | calcule.py:36 | joining the pieces of `key.split(sep)` with `sep` gives back the key |
| Text.SplitCount | calcule.py:36 | a key splits into one more piece than it has separators |
| Text.SplitSingle | calcule.py:37-38 | a key is a single piece exactly when it holds no separator, and the piece is then the key itself |
| Text.SplitPair | calcule.py:39-40 | a key splits into two pieces exactly when it holds one separator, and it is then first piece, separator, second piece |
| Sums.Denominator | calcule.py:28 | the definition of the weight sum of a recipe; used by `ResolverFacts.ComponentsZero` and `ResolverFacts.VisitAllocatesQuantity` |
| Sums.Total | calcule.py:50 | the definition of the sum of a mapping's values; its properties are `Sums.TotalRemove` and `Sums.TotalAdd`, and `Sums.SumValues` computes it |
| Sums.Add | main.py:52-55 | the bucket merge adds `v` under `k`, creating it at `v`, and leaves the other buckets alone |
| Sums.TotalAdd | main.py:52-58 | a merge of `v` into a bucket raises the sum of the buckets by `v` |
| Sums.SumValues | main.py:58 | the loop computes the sum of the values of a bucket mapping |
| Loading.Load | main.py:22-30 | the definition of `load_yaml` on the file oracle; its contract ties it to `Directory`: it succeeds exactly when the basename is in the directory, with that file's contents, and otherwise fails with `NotFound` |
| Loading.Directory | main.py:39 | the recipes directory holds exactly the recipe files, by basename |
| Loading.AsMap | main.py:103 | a loaded file is usable as a dictionary exactly when it is a mapping, with exactly its keys and their values |
| Loading.Cached | prod.py:23-37 | the definition of what `load_json` returns; its contract says it fails (with `NotFound`) exactly when the basename is neither cached nor in the directory, returns a cached value whatever the directory, and otherwise the directory's file. The memoisation promise is carried by `Loading.ReadOnce`, `Loading.View` and `Loading.CacheJson.LoadJson` |
| Loading.Remember | prod.py:24-32 | the definition of the cache after `load_json`; its contract says the cache gains at most the basename, exactly when the read succeeds, keeps every value it held, and holds under the basename the value the read returned |
| Loading.ReadOnce | prod.py:23-37 | after one successful `load_json`, every later call for that basename, from any directory, returns the same value and leaves the cache as it is |
| Loading.View | prod.py:49 | the recipes as `load_json("recettes", …)` sees them: a cached basename shadows the recipe file, and a name outside both is `NotFound` |
| Loading.ViewRemember | prod.py:49 | reading from the recipes directory through the cache does not change what later reads from it return |
| Loading.CacheJson.constructor | prod.py:20-21 | a new cache is empty and consistent with the files |
| Loading.CacheJson.LoadJson | prod.py:23-37 | the method returns what `Cached` says, updates the cache as `Remember` says, and keeps every cached value equal to the file it came from |
| Resolver.AsTable | main.py:40 | a recipe file is a weight table exactly when it is a mapping of numbers (both directions), with the same keys and weights in the same order |
| Resolver.Numbers | calcule.py:28 | the items of a mapping form a weight table exactly when every value is a number (both directions), with the same keys and weights in the same order |
| Resolver.Resolve | calcule.py:21-51 | the definition of the resolver (also main.py:33-59, cook-recipes.py:23-53, prod.py:45-79); its contract only says the table's keys grow; its properties are the `ResolverFacts` lemmas |
| Resolver.Components | calcule.py:35-48 | the definition of the loop over the components; its contract only says the table's keys grow; properties in `ResolverFacts.Components*` |
| Resolver.Step | calcule.py:36-48 | the definition of one pass of the loop, in the source's order of checks; its contract says the keys grow and the recipe keeps its entry; properties in `ResolverFacts.StepEntry` and `ResolverFacts.StepOk` |
| Resolver.Share | calcule.py:41 | the definition of a component's quantity, `q * weight / Σ weights`; its properties are `ResolverFacts.ShareSum` and `ResolverFacts.ShareAdd` |
| Resolver.Finish | calcule.py:50 | the definition of writing `total_weight` as the sum of the buckets, failing when the entry has none; the invariant it establishes is `ResolverFacts.ResolveConsistent` |
| Resolver.Names | calcule.py:36-40 | a key with two pieces is (source, display); a key with one piece, or with any number of pieces in `main.py`, names itself; more than two pieces is `BadKey` exactly in the strict dialects |
| Resolver.NewEntry | main.py:41-44 | a recipe's first visit creates empty buckets, with the seeded fields at zero exactly when the recipe has the selling key |
| Resolver.Merge | calcule.py:42-45 | merging a share touches only the visited recipe's buckets: its fields and every other entry stay as they were |
| Resolver.Advance | calcule.py:35-48 | a proof helper that unfolds `Components` by one step: one step followed by the rest, stopping at the first error |
| Resolver.FollowRecipe | calcule.py:21-51 | the recursive resolver with its loop returns exactly the specified visit (cost, direct children, table) or the specified error |
| Resolver.FollowComponent | calcule.py:36-48 | one pass of the loop: skip, split, divide by the weight sum, merge, record the child, recurse and add the cost, as specified |
| ResolverFacts.VisitOk | calcule.py:27-51 | a proof helper that unfolds a successful `Resolve` of a recipe: its components resolved from its first-visit entry, then the total written from the buckets |
| ResolverFacts.StepOk | calcule.py:41-48 | a proof helper that unfolds a successful `Step`: the merge, then the resolution of its source for its share |
| ResolverFacts.ComponentsNoBuckets | prod.py:70 | without buckets, only a recipe whose components are all skipped gets through |
| ResolverFacts.ResolveFrame | calcule.py:21-51 | a visit leaves alone every entry whose rank is above the visited name |
| ResolverFacts.StepEntry | calcule.py:42-48 | a step only adds the share to the recipe's bucket for its display name; the recipe's fields stay as they were |
| ResolverFacts.ComponentsFields | calcule.py:35-48 | the recipe's fields stay as they were through the loop |
| ResolverFacts.ComponentsBucketKeys | calcule.py:42-45 | the recipe's buckets gain exactly the display names of its components |
| ResolverFacts.ComponentsZero | calcule.py:28 | with a zero weight sum, a successful loop changes nothing, because every component that is not skipped would divide by zero |
| ResolverFacts.ComponentsTotal | calcule.py:41-45 | the sum of the buckets grows by the share of the included weights |
| ResolverFacts.ComponentsBucket | calcule.py:41-45 | each bucket grows by the share of the weights of the components shown under its name |
| ResolverFacts.VisitBuckets | calcule.py:27-51 | after a visit the recipe's buckets gain its display names, every bucket grows by its share of `q`, and `total_weight` is the sum of the buckets |
| ResolverFacts.VisitAllocatesQuantity | main.py:40-58 | without skipped keys a visit adds exactly `q` to the recipe's total of buckets |
| ResolverFacts.ResolveConsistent | calcule.py:50 | every entry a visit changes ends with its total equal to the sum of its buckets; the others are unchanged |
| ResolverFacts.ComponentsConsistent | calcule.py:35-48 | the loop keeps every changed entry consistent, except the visited recipe, which `Finish` fixes |
| ResolverFacts.StaysConsistent | calcule.py:50 | a table whose every entry is consistent stays consistent after a visit |
| ResolverFacts.ChildrenKeys | calcule.py:46 | the direct children gain exactly the display names of the components |
| ResolverFacts.ChildKept | calcule.py:46 | a child no later component shows under the same name keeps its quantity |
| ResolverFacts.ChildOfLast | calcule.py:46 | a child holds the share of the last component shown under its name (the last write wins) |
| ResolverFacts.VisitChildren | calcule.py:34-51 | the returned children are exactly the display names, each with the share of the last component shown under it |
| ResolverFacts.CostOf | calcule.py:24-51 | the definition of the reference cost that ignores the aggregation table; `ResolverFacts.ResolveCost` ties the resolver's cost to it |
| ResolverFacts.CostsFrom | calcule.py:33-48 | the definition of the summed reference costs of a recipe's included components from `i` on; `ResolverFacts.ComponentsCost` ties the loop to it |
| ResolverFacts.ResolveCost | calcule.py:24-51 | the cost of a successful visit is the reference cost `CostOf` and does not depend on the table |
| ResolverFacts.ComponentsCost | calcule.py:33-48 | the loop's cost is the sum of its included components' reference costs |
| ResolverFacts.CostAdds | calcule.py:24-51 | the reference cost is additive in the quantity |
| ResolverFacts.CostIsLinear | calcule.py:24-51 | resolving a name for `q1` and for `q2` costs what resolving it once for `q1 + q2` does |
| ResolverFacts.ResolveKeepsEmpty | prod.py:88 | an entry without buckets, such as a product's `{}` placeholder, survives every successful visit unchanged |
| ResolverFacts.ComponentsKeepsEmpty | prod.py:88 | the loop keeps an entry without buckets unchanged |
| Pricing.Dough | main.py:116 | the definition of the dough an order needs, count × dough weight × loss rate; used by `Orders.OrderOk` and `Orders.OrderCost` |
| Pricing.Margins | main.py:126-135 | the margin fails with a division by zero exactly when the tax factor, the count or the price without tax is zero; otherwise the piece price is price per kilogram times baked weight, the price without tax times the factor is the piece price, and the cost per piece times the count is the cost |
| Pricing.MarginRecoversCost | main.py:131-135 | the cost per piece is the price without tax less the margin rate's share of it |
| Pricing.MarginSign | main.py:133-135 | with a positive price without tax, the margin is positive exactly when a piece costs less than it sells for, and at most 100 % exactly when the cost is not negative |
| Orders.Sale | main.py:124-135 | the definition of the sale figures: selling price, baked weight and tax factor read in the program's order, then `Pricing.Margins` |
| Orders.Order | main.py:107-135 | the definition of one order line (also calcule.py:85-111, cook-recipes.py:87-113), with the checks in each program's order; its properties are `Orders.OrderFrame`, `Orders.OrderRecord`, `Orders.OrderCost` and `Orders.OrderConsistent` |
| Orders.OrderItems | main.py:107-135 | the definition of the lines of one order file in order, stopping at the first error; property `Orders.ItemsConsistent` |
| Orders.OrderFile | main.py:105-107 | the definition of one order file: loaded, required to be a mapping, then its lines; property `Orders.FilesConsistent` |
| Orders.OrderFiles | main.py:104-135 | the definition of the order files in order; property `Orders.FilesConsistent` |
| Orders.Run | main.py:91-135 | the definition of a whole run from empty tables; property `Orders.RunConsistent` |
| Orders.Fields | main.py:119-135 | a product without a selling price gets exactly its count and dough weight; with one, the record succeeds exactly when the sale figures do (the full record is stated by `Orders.RecordFields`) |
| Orders.RecordFields | main.py:120-135 | the record's key set is exactly the count and dough weight, plus, with a selling price, the piece price, the cost per piece, the margin rate and the layout's optional fields; those hold the selling price per kilogram (main.py:125) and the price per piece without tax (main.py:130); the cost per piece times the count gives the order's cost, and the margin rate recovers it from the price without tax |
| Orders.OrderFrame | main.py:107-135 | an order line touches only its own product's record, and the recipes table only gains entries; a zero count changes nothing |
| Orders.OrderOk | main.py:107-135 | a proof helper that unfolds a successful nonzero `Order`: the product file read, its recipe resolved for count × dough × loss, and its record written |
| Orders.OrderRecord | main.py:111-121 | a nonzero order line's record has its recipe entry (`{root: weight}` in `main.py`), its count and its dough weight |
| Orders.OrderCost | main.py:131-132 | the record's cost per piece is the reference cost of the product's recipe for the order's dough, divided by the count |
| Orders.OrderConsistent | calcule.py:95-97 | an order line keeps every recipe entry consistent |
| Orders.ItemsConsistent | calcule.py:85-111 | one order file keeps every recipe entry consistent |
| Orders.FilesConsistent | calcule.py:82-111 | the order files keep every recipe entry consistent |
| Orders.RunConsistent | calcule.py:72-113 | at the end of a run every recipe's `total_weight` is the sum of its buckets |
| Orders.PlaceOrder | cook-recipes.py:87-113 | the body of the inner loop computes exactly the specified order line, with its checks in the program's order |
| Orders.PlaceOrders | cook-recipes.py:85-113 | the inner loop over one order file computes exactly the specified lines in order and stops at the first error |
| Orders.RunOrders | cook-recipes.py:74-113 | `main` loads the settings and base ingredients, then the order files in turn, as specified |
| Prod.ViewRanked | prod.py:49 | the recipes as the cache shows them are acyclic whenever the cache and the files are |
| Prod.RememberRanked | prod.py:24-32 | a `load_json` call keeps the cache acyclic |
| Prod.Restrict | prod.py:37 | the restriction of a map to some keys has exactly those of its keys, with the same values |
| Prod.ViewDetermines | prod.py:23-37 | the cache contents are its view of the recipes restricted to its keys |
| Prod.Reached | prod.py:49 | the definition of the recipe basenames a visit reads through the cache; its contract says they are the recipe store's names, which `Prod.Touille.Detail` uses to state the cache after `detail` |
| Prod.Produce | prod.py:87-106 | the definition of one order line of `touille`, with the checks in the program's order; it keeps the cache acyclic; its properties are `Prod.ProduceRecord` and `Prod.ProduceZeroCount` |
| Prod.ProduceRecipe | prod.py:93-106 | the definition of the rest of an order line once the product file is read; property `Prod.RecipeRecord` |
| Prod.ProduceAll | prod.py:86-106 | the definition of the order lines from line `i` on; it keeps the cache acyclic |
| Prod.Reads | prod.py:82-86 | the definition of the three reads `touille` starts with, in the program's order; on success the order file is a mapping |
| Prod.Stir | prod.py:81-106 | the definition of `touille`: the three reads of `Prod.Reads` through the cache, then the lines; it keeps the cache acyclic |
| Prod.StirAll | prod.py:117-118 | the definition of the program's loop over the order files on one cache and one table |
| Prod.Complete | prod.py:95-106 | the completed record has the direct children as buckets, the count and the dough weight, and the key set of the table is kept (the other entries' values are kept by `Prod.CompleteRecord`) |
| Prod.CompleteRecord | prod.py:95-106 | the other entries stay as they are, the product's buckets are its children, its fields gain exactly `quantite`, `poids-paton` and, with a selling price, the piece price and the margin rate; the margin rate is the one `Pricing.Margins` computes from the cost, and it recovers the cost per piece from the price without tax |
| Prod.CompleteZeroCount | prod.py:104 | a zero count is not skipped: for a product with a selling price, dividing the cost by the count fails |
| Prod.ProduceRecord | prod.py:86-106 | after an order line the product's entry holds exactly the direct children of its recipe's visit for the order's dough, the count and the dough weight, and with a selling price the piece price and margin rate that `Pricing.Margins` computes from the recipe's reference cost `ResolverFacts.CostOf`; this holds whatever the entry held before, and the count of a sellable product is not zero |
| Prod.RecipeRecord | prod.py:90-106 | the same record, children, piece price and margin rate once the product file is read and the placeholder written |
| Prod.ProduceZeroCount | prod.py:86-106 | a zero-count order line of a product with a selling price fails |
| Prod.StepUnfold | prod.py:64-76 | a proof helper that unfolds `Step` for one component of `detail`: the merge, the recursion on its source for its share, and the extension of the running cost and children |
| Prod.ComponentsStep | prod.py:61-76 | a proof helper that unfolds `Components` for one pass of `detail`'s loop: the loop's specification moves from component `i` to `i + 1`, or ends with that error |
| Prod.Touille.constructor | prod.py:41-43 | a new `Touille` has an empty table and the given cache |
| Prod.Touille.Detail | prod.py:45-79 | `detail` returns the cost and direct children of the specified visit, leaves `ingredients` as the specified table, and keeps the cache consistent with the files and with the recipes it shows |
| Prod.Touille.DetailRecipe | prod.py:49-79 | the recipe branch of `detail` from the loaded recipe on, as specified |
| Prod.Touille.DetailComponents | prod.py:59-78 | the loop of `detail` computes the specified components and the total |
| Prod.Touille.DetailComponent | prod.py:62-76 | one pass of the loop computes the specified step |
| Prod.Touille.DetailShare | prod.py:69-76 | the merge, the recursion and the addition of the cost and the child, as specified |
| Prod.Touille.Product | prod.py:87-106 | the body of `touille`'s loop leaves the cache and `ingredients` as the specified order line does, or fails with its error |
| Prod.Touille.ProductRecipe | prod.py:93-106 | the rest of the body once the product file is read, as specified |
| Prod.Touille.ProductRecord | prod.py:95-106 | the product's record is completed in place as `Complete` says |
| Prod.Touille.Products | prod.py:86-106 | the loop over one order file computes the specified lines in order and stops at the first error |
| Prod.Touille.Touille | prod.py:81-106 | `touille` leaves the cache and `ingredients` as `Stir` specifies, or fails with its error; on success `matieres`, `commandes` and `general` hold what `Prod.Reads` returns |
| Prod.Touille.LoadFiles | prod.py:82-84 | the three reads through the cache set `matieres`, `commandes` and `general` to what `Prod.Reads` returns; what is left of `Stir` is exactly the loop over the order lines |
| Prod.Run | prod.py:115-119 | the program's loop over the order files, on one cache and one `Touille`, yields the specified final table |
| Programs.LayoutsSeparate | main.py:119-135 | no program's record fields overwrite one another |
| Programs.MainKeys | main.py:47-50 | in `main.py` every key resolves; a key with one `|` is (source, display) and joins back to the key; any other key names itself |
| Programs.StrictKeys | calcule.py:36-40 | in a strict dialect a key without the separator names itself, one with a single separator is its two parts, and one with more is exactly the `BadKey` error |
| Programs.CalculeKeys | calcule.py:36-40 | the key rule of `calcule.py` |
| Programs.CookKeys | cook-recipes.py:38-42 | the key rule of `cook-recipes.py` |
| Programs.ProdKeys | prod.py:62-68 | in `prod.py` a key is skipped exactly when it starts with `-`, and otherwise splits on `:` as in `calcule.py` |

## Left out

- Parsing YAML and JSON and opening files are not modelled. The files are a
  map from (directory, basename) to parsed contents. A file that cannot be
  opened ends the run with `NotFound`. A file with a syntax error is not
  distinguished from a missing one.
- Command-line parsing (`argparse`) is not modelled. The ingredients file and
  the order files are parameters.
- Reports are not modelled: `text_report`, `html_report`, jinja2 templates,
  translations, `float_representer` and `FormatPrinter`. They only print the
  tables the model computes.
- The colours file that `main.py` loads is read for its failure only. It is
  never used in the computation.
- Floating point is modelled as exact `real` arithmetic, both in Python's `/`
  and in the rounding at printing.
- Cyclic recipe graphs are not modelled. The programs recurse without bound
  on them. The model requires an acyclic rank instead.
- The rank (`Resolver.Ranked`, `Prod.RankedFiles`) is required of every
  stored recipe, reached or not. That includes a recipe file hidden by a raw
  material of the same name. So one self-referencing recipe that no order
  visits excludes the whole input from every theorem, although the programs
  terminate on it.
- In `prod.py` a product or order file cached under a recipe's basename can
  be read as a recipe. `Prod.RankedFiles` therefore ranks every file, not
  only the recipes.
- The state left behind after an error is not modelled. Every error ends the
  program, as `sys.exit`, an uncaught exception and `pdb` do. For example,
  the piece price that `prod.py:101` writes before `self.general["tva"]`
  fails is not modelled.
- `import pdb; pdb.set_trace()` at `prod.py:53` is modelled as a `WrongType`
  error. The debugger session itself is not.
- Duplicate keys in a mapping are not modelled. The Python loaders keep the
  last value. The model's `Json` keeps every item, and `Data.Lookup` reads
  the first one. No property depends on distinct keys.
- The `@cache` on `load_yaml` in `main.py` and `cook-recipes.py` has no
  visible effect, because the files do not change during a run. It is
  modelled as a plain read.
- In `main.py` the global `base_ingredients` and `recipes` are passed
  explicitly, as the other two YAML programs pass them.
- A base-ingredients or raw-materials file that is not a mapping is reported
  as `WrongType` when it is loaded. In Python, `name in x` on a list would
  go on.
- Orders.Order: an order count that is a string is modelled as `WrongType`.
  Python would repeat the string when it is multiplied by an integer dough
  weight, and fail later.
- `follow_recipe` and `Touille.detail` are written as several methods, one
  per loop body and one per branch. Each is proved against the matching
  layer of the specification. The recursion and the loop are the source's.
- The three YAML programs are one model, `Orders` with a `Resolver.Dialect`
  and an `Orders.Layout`, rather than three copies. `Programs` holds the
  instances.
