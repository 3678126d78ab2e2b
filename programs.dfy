/** The four programs as instances of the shared resolver and orders loop:
    main.py, calcule.py, cook-recipes.py (the YAML programs) and prod.py. */
module Programs {
  import opened Data
  import opened Text
  import opened Resolver
  import opened Orders
  import opened Prod

  /** main.py: `|` separates source and display name and a key with any other
      number of parts names itself; `quantity` is seeded for a sellable
      recipe. */
  const MainDialect := Dialect('|', true, false, "price", "selling_price_per_kg_incl_taxes",
                               ["quantity"], "recipe", "total_weight")

  /** calcule.py: a key with more than one `|` cannot be unpacked. */
  const CalculeDialect := Dialect('|', false, false, "price", "selling_price_per_kg_tax_inclusive",
                                  ["quantity"], "recipe", "total_weight")

  /** cook-recipes.py: as calcule.py, with the other selling key. */
  const CookDialect := Dialect('|', false, false, "price", "selling_price_per_kg_incl_taxes",
                               ["quantity"], "recipe", "total_weight")

  /** main.py records `{root: weight}`, copies the selling price per kilogram,
      writes the price per piece without tax and reads the colours file. */
  const MainLayout := Layout(MainDialect, "selling_price_per_kg_incl_taxes", true,
                             Some("selling_price_per_kg_incl_taxes"), "selling_price_per_piece_incl_taxes",
                             Some("selling_price_per_piece_excl_taxes"), "cost_price_per_piece_excl_taxes",
                             "gross_margin_rate", true, true)

  const CalculeLayout := Layout(CalculeDialect, "selling_price_per_kg_tax_inclusive", false, None,
                                "selling_price_per_piece_tax_inclusive", None, "cost_price_per_piece_tax_exclusive",
                                "gross_margin_rate", false, false)

  const CookLayout := Layout(CookDialect, "selling_price_per_kg_incl_taxes", false, None,
                             "selling_price_per_piece_incl_taxes", None, "cost_price_per_piece_excl_taxes",
                             "gross_margin_rate", false, false)

  /** No program's record fields overwrite one another. */
  lemma LayoutsSeparate()
    ensures Separate(MainLayout) && Separate(CalculeLayout) && Separate(CookLayout)
  {
  }

  /** In main.py a key with exactly one `|` is (source, display) and joins
      back to the key; any other key names itself. */
  lemma MainKeys(key: string)
    ensures Names(MainDialect, key).Ok?
    ensures Occurrences(key, '|') == 1 ==>
      var (source, display) := Names(MainDialect, key).value;
      && key == source + "|" + display && '|' !in source && '|' !in display
    ensures Occurrences(key, '|') != 1 ==> Names(MainDialect, key) == Ok((key, key))
  {
    SplitPair(key, '|');
    if Occurrences(key, '|') == 1 {
      var parts := Split(key, '|');
      assert parts[0] + "|" + parts[1] == parts[0] + ['|'] + parts[1];
    }
  }

  /** In a strict dialect a key without the separator names itself, a key
      with one is (source, display), and a key with more is an error. */
  lemma StrictKeys(d: Dialect, key: string)
    requires !d.lenient
    ensures !(d.separator in key) ==> Names(d, key) == Ok((key, key))
    ensures Occurrences(key, d.separator) == 1 ==>
      && Names(d, key).Ok?
      && var (source, display) := Names(d, key).value;
      && key == source + [d.separator] + display && d.separator !in source && d.separator !in display
    ensures Occurrences(key, d.separator) > 1 <==> Names(d, key) == Err(BadKey(key))
  {
    SplitSingle(key, d.separator);
    SplitPair(key, d.separator);
    SplitCount(key, d.separator);
  }

  /** calcule.py's keys. */
  lemma CalculeKeys(key: string)
    ensures '|' !in key ==> Names(CalculeDialect, key) == Ok((key, key))
    ensures Occurrences(key, '|') == 1 ==>
      && Names(CalculeDialect, key).Ok?
      && var (source, display) := Names(CalculeDialect, key).value;
      && key == source + "|" + display
    ensures Occurrences(key, '|') > 1 <==> Names(CalculeDialect, key) == Err(BadKey(key))
  {
    StrictKeys(CalculeDialect, key);
  }

  /** cook-recipes.py's keys. */
  lemma CookKeys(key: string)
    ensures '|' !in key ==> Names(CookDialect, key) == Ok((key, key))
    ensures Occurrences(key, '|') == 1 ==>
      && Names(CookDialect, key).Ok?
      && var (source, display) := Names(CookDialect, key).value;
      && key == source + "|" + display
    ensures Occurrences(key, '|') > 1 <==> Names(CookDialect, key) == Err(BadKey(key))
  {
    StrictKeys(CookDialect, key);
  }

  /** prod.py's keys, with `:` and `-`: a key starting with `-` is not a
      component, others split as in calcule.py. */
  lemma ProdKeys(key: string)
    ensures Skipped(ProdDialect, key) <==> StartsWith(key, "-")
    ensures ':' !in key ==> Names(ProdDialect, key) == Ok((key, key))
    ensures Occurrences(key, ':') == 1 ==>
      && Names(ProdDialect, key).Ok?
      && var (source, display) := Names(ProdDialect, key).value;
      && key == source + ":" + display
    ensures Occurrences(key, ':') > 1 <==> Names(ProdDialect, key) == Err(BadKey(key))
  {
    StrictKeys(ProdDialect, key);
  }
}
