/** The emission aggregator: a product's carbon emission is the sum of
    emissionPerGram * servingQty over its associations, and a merchant's carbon
    rating is the mean of its products' emissions. The reference definitions are
    the ghost functions here; the two loops of the service are proved equal to them. */
module Emission {
  import opened Model

  /** The emission factor of an ingredient. Every association names a known
      ingredient (Composition.WellFormed), so the default is never used there. */
  function FactorOf(emissionPerGram: map<string, real>, name: string): real {
    if name in emissionPerGram then emissionPerGram[name] else 0.0
  }

  /** Sum of emissionPerGram * servingQty over the associations `assocs`
      (ingredient name to serving quantity). The order in which the names are taken
      does not matter (TotalEmissionRemove). */
  ghost function TotalEmission(assocs: map<string, real>, emissionPerGram: map<string, real>): real
    decreases |assocs|
  {
    if assocs == map[] then 0.0
    else
      var n := Pick(assocs);
      assert |assocs - {n}| < |assocs| by { CardinalityRemove(assocs, n); }
      FactorOf(emissionPerGram, n) * assocs[n] + TotalEmission(assocs - {n}, emissionPerGram)
  }

  /** Some name of a non-empty association map. */
  ghost function Pick(assocs: map<string, real>): (n: string)
    requires assocs != map[]
    ensures n in assocs
  {
    var n :| n in assocs; n
  }

  /** Removing a present key shrinks a map by one. */
  lemma CardinalityRemove(m: map<string, real>, n: string)
    requires n in m
    ensures |m - {n}| == |m| - 1
  {
  }

  /** Taking any one association out first gives the same total. */
  lemma {:induction false} TotalEmissionRemove(assocs: map<string, real>, emissionPerGram: map<string, real>, n: string)
    requires n in assocs
    ensures TotalEmission(assocs, emissionPerGram)
         == FactorOf(emissionPerGram, n) * assocs[n] + TotalEmission(assocs - {n}, emissionPerGram)
    decreases |assocs|
  {
    var k := Pick(assocs);
    if k != n {
      var a, b := assocs - {k}, assocs - {n};
      CardinalityRemove(assocs, k);
      CardinalityRemove(assocs, n);
      TotalEmissionRemove(a, emissionPerGram, n);
      TotalEmissionRemove(b, emissionPerGram, k);
      assert a - {n} == b - {k};
      assert a[n] == assocs[n] && b[k] == assocs[k];
    }
  }

  /** Adding an association for a name not yet present adds its emission. */
  lemma TotalEmissionInsert(assocs: map<string, real>, emissionPerGram: map<string, real>, n: string, qty: real)
    requires n !in assocs
    ensures TotalEmission(assocs[n := qty], emissionPerGram)
         == TotalEmission(assocs, emissionPerGram) + FactorOf(emissionPerGram, n) * qty
  {
    TotalEmissionRemove(assocs[n := qty], emissionPerGram, n);
    assert assocs[n := qty] - {n} == assocs;
  }

  /** Changing the quantity of one present association changes the total by the
      difference of its two contributions. */
  lemma TotalEmissionReplace(assocs: map<string, real>, emissionPerGram: map<string, real>, n: string, qty: real)
    requires n in assocs
    ensures TotalEmission(assocs[n := qty], emissionPerGram)
         == TotalEmission(assocs, emissionPerGram) - FactorOf(emissionPerGram, n) * assocs[n] + FactorOf(emissionPerGram, n) * qty
  {
    TotalEmissionRemove(assocs[n := qty], emissionPerGram, n);
    TotalEmissionRemove(assocs, emissionPerGram, n);
    assert assocs[n := qty] - {n} == assocs - {n};
  }

  /** With non-negative emission factors and quantities the total is non-negative. */
  lemma {:induction false} TotalEmissionNonNegative(assocs: map<string, real>, emissionPerGram: map<string, real>)
    requires forall n | n in emissionPerGram :: emissionPerGram[n] >= 0.0
    requires forall n | n in assocs :: assocs[n] >= 0.0
    ensures TotalEmission(assocs, emissionPerGram) >= 0.0
    decreases |assocs|
  {
    if assocs != map[] {
      var n :| n in assocs;
      CardinalityRemove(assocs, n);
      TotalEmissionRemove(assocs, emissionPerGram, n);
      TotalEmissionNonNegative(assocs - {n}, emissionPerGram);
    }
  }

  /** The service's loop over the product's association set, adding
      emissionPerGram * servingQty for each association (each association carries
      its ingredient, whose factor FactorOf reads). */
  method CalculateTotalEmissions(assocs: map<string, real>, emissionPerGram: map<string, real>) returns (total: real)
    ensures total == TotalEmission(assocs, emissionPerGram)
    ensures assocs == map[] ==> total == 0.0
  {
    total := 0.0;
    var remaining := assocs;
    while remaining != map[]
      invariant total + TotalEmission(remaining, emissionPerGram) == TotalEmission(assocs, emissionPerGram)
      decreases |remaining|
    {
      var n :| n in remaining;
      TotalEmissionRemove(remaining, emissionPerGram, n);
      CardinalityRemove(remaining, n);
      total := total + FactorOf(emissionPerGram, n) * remaining[n];
      remaining := remaining - {n};
    }
  }

  /** The emission of a listed product. A merchant only lists existing products
      (Composition.WellFormed), so the default is never used there. */
  function EmissionOf(products: map<ProductId, Product>, id: ProductId): real {
    if id in products then products[id].carbonEmission else 0.0
  }

  /** Sum of carbonEmission over the products listed in `ids`, in list order. */
  function SumCarbonEmission(ids: seq<ProductId>, products: map<ProductId, Product>): real {
    if ids == [] then 0.0
    else SumCarbonEmission(ids[..|ids| - 1], products) + EmissionOf(products, ids[|ids| - 1])
  }

  /** The arithmetic mean of carbonEmission over the listed products. */
  function Mean(ids: seq<ProductId>, products: map<ProductId, Product>): real
    requires |ids| > 0
  {
    SumCarbonEmission(ids, products) / (|ids| as real)
  }

  /** The sum reads only the emissions of the listed products. */
  lemma {:induction false} SumCarbonEmissionFrame(ids: seq<ProductId>, products: map<ProductId, Product>, products': map<ProductId, Product>)
    requires forall id | id in ids :: EmissionOf(products, id) == EmissionOf(products', id)
    ensures SumCarbonEmission(ids, products) == SumCarbonEmission(ids, products')
  {
    if ids != [] {
      assert ids[|ids| - 1] in ids;
      SumCarbonEmissionFrame(ids[..|ids| - 1], products, products');
    }
  }

  /** A sum of |ids| terms each within [lo, hi] lies within [|ids| * lo, |ids| * hi]. */
  lemma {:induction false} SumCarbonEmissionBounds(ids: seq<ProductId>, products: map<ProductId, Product>, lo: real, hi: real)
    requires forall id | id in ids :: id in products
    requires forall id | id in ids :: lo <= products[id].carbonEmission <= hi
    ensures (|ids| as real) * lo <= SumCarbonEmission(ids, products) <= (|ids| as real) * hi
  {
    if ids != [] {
      assert ids[|ids| - 1] in ids;
      SumCarbonEmissionBounds(ids[..|ids| - 1], products, lo, hi);
    }
  }

  /** The rating lies between the smallest and the largest product emission. */
  lemma MeanBounds(ids: seq<ProductId>, products: map<ProductId, Product>, lo: real, hi: real)
    requires |ids| > 0
    requires forall id | id in ids :: id in products
    requires forall id | id in ids :: lo <= products[id].carbonEmission <= hi
    ensures lo <= Mean(ids, products) <= hi
  {
    SumCarbonEmissionBounds(ids, products, lo, hi);
    QuotientBounds(SumCarbonEmission(ids, products), |ids| as real, lo, hi);
  }

  /** Dividing a value bounded by [k * lo, k * hi] by a positive k. */
  lemma QuotientBounds(sum: real, k: real, lo: real, hi: real)
    requires k > 0.0 && k * lo <= sum <= k * hi
    ensures lo <= sum / k <= hi
  {
  }

  /** A merchant whose products all have emission e is rated e; in particular a
      merchant with a single product is rated at that product's emission. */
  lemma MeanOfEqual(ids: seq<ProductId>, products: map<ProductId, Product>, e: real)
    requires |ids| > 0
    requires forall id | id in ids :: id in products && products[id].carbonEmission == e
    ensures Mean(ids, products) == e
  {
    MeanBounds(ids, products, e, e);
  }

  /** The service's loop over the merchant's product list, followed by the
      division by the list's size. The source has no guard for an empty list. */
  method CalculateCarbonRating(ids: seq<ProductId>, products: map<ProductId, Product>) returns (rating: real)
    requires |ids| > 0
    requires forall id | id in ids :: id in products
    ensures rating == Mean(ids, products)
  {
    var total := 0.0;
    for i := 0 to |ids|
      invariant total == SumCarbonEmission(ids[..i], products)
    {
      assert ids[..i + 1][..i] == ids[..i];
      var id := ids[i];
      assert id in ids;
      assert id in products;
      total := total + products[id].carbonEmission;
    }
    assert ids[..|ids|] == ids;
    rating := total / (|ids| as real);
  }
}
