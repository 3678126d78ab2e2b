/** The per-piece arithmetic of a sellable product: selling price with and
    without tax, cost per piece and gross margin rate (in percent). */
module Pricing {
  import opened Data

  /** The weight of dough an order needs: pieces times dough per piece times
      the loss rate. */
  function Dough(count: real, doughWeight: real, lossRate: real): real {
    count * doughWeight * lossRate
  }

  datatype Margin = Margin(pieceInclTax: real, pieceExclTax: real, costPerPiece: real, rate: real)

  /** From the selling price per kilogram including tax, the baked weight of a
      piece, the tax factor (1.055 for 5.5 %), the production cost of the
      order and the number of pieces. Each zero divisor is an error, in the
      order the programs divide. */
  function Margins(owner: Name, sellPerKg: real, bakedWeight: real, vat: real, price: real, count: real): (r: Result<Margin>)
    ensures r.Err? <==> vat == 0.0 || count == 0.0 || sellPerKg * bakedWeight == 0.0
    ensures r.Err? ==> r.error == DivisionByZero(owner)
    ensures r.Ok? ==> r.value.pieceInclTax == sellPerKg * bakedWeight
    ensures r.Ok? ==> r.value.pieceExclTax * vat == r.value.pieceInclTax && r.value.pieceExclTax != 0.0
    ensures r.Ok? ==> r.value.costPerPiece * count == price
  {
    var pieceInclTax := sellPerKg * bakedWeight;
    if vat == 0.0 then Err(DivisionByZero(owner))
    else
      var pieceExclTax := pieceInclTax / vat;
      if count == 0.0 then Err(DivisionByZero(owner))
      else
        var costPerPiece := price / count;
        if pieceExclTax == 0.0 then Err(DivisionByZero(owner))
        else Ok(Margin(pieceInclTax, pieceExclTax, costPerPiece, (pieceExclTax - costPerPiece) / pieceExclTax * 100.0))
  }

  /** The margin rate determines the cost: the cost per piece is the price
      without tax less the margin's share of it. */
  lemma MarginRecoversCost(owner: Name, sellPerKg: real, bakedWeight: real, vat: real, price: real, count: real)
    requires Margins(owner, sellPerKg, bakedWeight, vat, price, count).Ok?
    ensures var m := Margins(owner, sellPerKg, bakedWeight, vat, price, count).value;
      m.costPerPiece == m.pieceExclTax * (1.0 - m.rate / 100.0)
  {
    var m := Margins(owner, sellPerKg, bakedWeight, vat, price, count).value;
    var e, c := m.pieceExclTax, m.costPerPiece;
    assert m.rate == (e - c) / e * 100.0;
    calc {
      e * (1.0 - m.rate / 100.0);
      e * (1.0 - (e - c) / e);
      e - e * ((e - c) / e);
      e - (e - c);
      c;
    }
  }

  /** For a positive price without tax the margin is positive exactly when a
      piece costs less than it sells for, and at most 100 % exactly when the
      cost is not negative. */
  lemma MarginSign(owner: Name, sellPerKg: real, bakedWeight: real, vat: real, price: real, count: real)
    requires Margins(owner, sellPerKg, bakedWeight, vat, price, count).Ok?
    requires Margins(owner, sellPerKg, bakedWeight, vat, price, count).value.pieceExclTax > 0.0
    ensures var m := Margins(owner, sellPerKg, bakedWeight, vat, price, count).value;
      && (m.rate > 0.0 <==> m.costPerPiece < m.pieceExclTax)
      && (m.rate <= 100.0 <==> m.costPerPiece >= 0.0)
  {
    var m := Margins(owner, sellPerKg, bakedWeight, vat, price, count).value;
    MarginRecoversCost(owner, sellPerKg, bakedWeight, vat, price, count);
    var e := m.pieceExclTax;
    assert m.costPerPiece == e - e * (m.rate / 100.0);
    if m.rate > 0.0 {
      assert e * (m.rate / 100.0) > 0.0;
    }
    if m.costPerPiece < e {
      assert e * (m.rate / 100.0) > 0.0;
    }
    if m.rate <= 100.0 {
      assert e * (m.rate / 100.0) <= e * 1.0;
    }
    if m.costPerPiece >= 0.0 {
      assert e * (m.rate / 100.0) <= e * 1.0;
    }
  }
}
