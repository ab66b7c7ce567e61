/** The product/ingredient composition manager: adding, updating and deleting a
    product's ingredient associations, each followed by re-deriving the product's
    carbon emission and its merchant's carbon rating.

    The operations are first given as ghost functions on a value of the whole
    catalogue (Store), with their properties proved about those functions; the
    class ProductService then carries out the same steps on its fields, in the
    order of the service, and is proved to match. */
module Composition {
  import opened Model
  import opened Emission

  /** The contents of the three repositories the service reads and writes. */
  datatype Store = Store(
    ingredients: map<string, real>,              // ingredient name to emissionPerGram
    products: map<ProductId, Product>,
    merchants: map<MerchantName, Merchant>)

  /** Product `id`'s associations name known ingredients, and the merchant that
      owns it exists and lists it. */
  ghost predicate ProductLinked(s: Store, id: ProductId) {
    id in s.products ==>
      && (forall n | n in s.products[id].ingredients :: n in s.ingredients)
      && s.products[id].merchant in s.merchants
      && id in s.merchants[s.products[id].merchant].products
  }

  /** Merchant `m` lists only existing products that it owns. */
  ghost predicate MerchantLinked(s: Store, m: MerchantName) {
    m in s.merchants ==>
      forall id | id in s.merchants[m].products :: id in s.products && s.products[id].merchant == m
  }

  /** Referential integrity of the catalogue, product by product and merchant by
      merchant. */
  ghost predicate WellFormed(s: Store) {
    && (forall id {:trigger ProductLinked(s, id)} :: ProductLinked(s, id))
    && (forall m {:trigger MerchantLinked(s, m)} :: MerchantLinked(s, m))
  }

  /** The product's emission agrees with its associations. */
  ghost predicate EmissionUpToDate(s: Store, id: ProductId) {
    && id in s.products
    && s.products[id].carbonEmission == TotalEmission(s.products[id].ingredients, s.ingredients)
  }

  /** The merchant's rating agrees with its products' emissions. A merchant without
      products has no defined rating and is not constrained. */
  ghost predicate RatingUpToDate(s: Store, m: MerchantName) {
    && m in s.merchants
    && (|s.merchants[m].products| > 0 ==>
          s.merchants[m].carbonRating == Mean(s.merchants[m].products, s.products))
  }

  /** Both derived fields agree with the folds they are derived from, everywhere. */
  ghost predicate Consistent(s: Store) {
    && WellFormed(s)
    && (forall id {:trigger EmissionUpToDate(s, id)} | id in s.products :: EmissionUpToDate(s, id))
    && (forall m {:trigger RatingUpToDate(s, m)} | m in s.merchants :: RatingUpToDate(s, m))
  }

  // ---- Lookups ----

  /** Product lookup by id; a missing product is NotExist("Product"). */
  function GetProductById(s: Store, productId: ProductId): (r: Result<Product>)
    ensures r.Ok? <==> productId in s.products
    ensures r.Ok? ==> r.value == s.products[productId]
    ensures !r.Ok? ==> r == NotExist(ProductEntity)
  {
    if productId in s.products then Ok(s.products[productId]) else NotExist(ProductEntity)
  }

  /** Ingredient lookup by name; a missing ingredient is NotExist("Ingredient"). */
  function GetIngredientByName(s: Store, name: string): (r: Result<Ingredient>)
    ensures r.Ok? <==> name in s.ingredients
    ensures r.Ok? ==> r.value.name == name && r.value.emissionPerGram == s.ingredients[name]
    ensures !r.Ok? ==> r == NotExist(IngredientEntity)
  {
    if name in s.ingredients then Ok(Ingredient(name, s.ingredients[name])) else NotExist(IngredientEntity)
  }

  /** Association lookup for an (ingredient, product) pair; a missing one is
      NotExist("Product Ingredient"). The association table and the product's own
      set are one relation here. */
  function GetProductIngredientByIngredientAndProduct(s: Store, ingredient: Ingredient, productId: ProductId): (r: Result<ProductIngredient>)
    ensures r.Ok? <==> productId in s.products && ingredient.name in s.products[productId].ingredients
    ensures r.Ok? ==> r.value == ProductIngredient(productId, ingredient, s.products[productId].ingredients[ingredient.name])
    ensures !r.Ok? ==> r == NotExist(ProductIngredientEntity)
  {
    if productId in s.products && ingredient.name in s.products[productId].ingredients
    then Ok(ProductIngredient(productId, ingredient, s.products[productId].ingredients[ingredient.name]))
    else NotExist(ProductIngredientEntity)
  }

  /** Building the association record from the submitted data. */
  function MapToEntity(dto: ProductIngredientDto, productId: ProductId, ingredient: Ingredient): (pi: ProductIngredient)
    ensures pi.productId == productId && pi.ingredient == ingredient && pi.servingQty == dto.servingQty
  {
    ProductIngredient(productId, ingredient, dto.servingQty)
  }

  // ---- Re-deriving the two derived fields ----

  /** The catalogue after product `productId`'s associations became `assocs` and its
      emission, then its merchant's rating, were re-derived. */
  ghost function Recompute(s: Store, productId: ProductId, assocs: map<string, real>): (t: Store)
    requires WellFormed(s) && productId in s.products
    requires forall n | n in assocs :: n in s.products[productId].ingredients || n in s.ingredients
    ensures WellFormed(t)
    ensures t.ingredients == s.ingredients
    ensures t.products.Keys == s.products.Keys && t.merchants.Keys == s.merchants.Keys
    ensures var p := t.products[productId];
      && p.ingredients == assocs
      && p.merchant == s.products[productId].merchant
      && p.carbonEmission == TotalEmission(assocs, s.ingredients)
    ensures forall id | id in s.products && id != productId :: t.products[id] == s.products[id]
    ensures var m := s.products[productId].merchant;
      && m in t.merchants && productId in t.merchants[m].products
      && t.merchants[m].products == s.merchants[m].products
      && t.merchants[m].carbonRating == Mean(t.merchants[m].products, t.products)
    ensures forall m | m in s.merchants && m != s.products[productId].merchant :: t.merchants[m] == s.merchants[m]
    ensures Consistent(s) ==> Consistent(t)
  {
    assert ProductLinked(s, productId);
    var p := s.products[productId];
    var products := s.products[productId := Product(assocs, TotalEmission(assocs, s.ingredients), p.merchant)];
    var merchant := s.merchants[p.merchant];
    var t := Store(s.ingredients, products,
                   s.merchants[p.merchant := Merchant(merchant.products, Mean(merchant.products, products))]);
    RecomputeWellFormed(s, t, productId);
    RecomputeKeepsConsistent(s, t, productId);
    t
  }

  /** Changing one product's associations to known ingredients and re-deriving the
      two fields keeps the catalogue's referential integrity. */
  lemma RecomputeWellFormed(s: Store, t: Store, productId: ProductId)
    requires WellFormed(s) && productId in s.products
    requires t.ingredients == s.ingredients
    requires t.products.Keys == s.products.Keys && t.merchants.Keys == s.merchants.Keys
    requires forall n | n in t.products[productId].ingredients :: n in s.ingredients
    requires t.products[productId].merchant == s.products[productId].merchant
    requires forall id | id in s.products && id != productId :: t.products[id] == s.products[id]
    requires forall m | m in s.merchants :: t.merchants[m].products == s.merchants[m].products
    ensures WellFormed(t)
  {
    forall id ensures ProductLinked(t, id) {
      assert ProductLinked(s, id);
    }
    forall m ensures MerchantLinked(t, m) {
      assert MerchantLinked(s, m);
    }
  }

  /** A merchant other than the modified product's owner lists only products
      whose emission did not change, so its rating stays the same. */
  lemma OtherMerchantSum(s: Store, t: Store, productId: ProductId, m: MerchantName)
    requires WellFormed(s) && productId in s.products
    requires t.products.Keys == s.products.Keys
    requires forall id | id in s.products && id != productId :: t.products[id] == s.products[id]
    requires m in s.merchants && m != s.products[productId].merchant
    ensures SumCarbonEmission(s.merchants[m].products, s.products)
         == SumCarbonEmission(s.merchants[m].products, t.products)
  {
    var ids := s.merchants[m].products;
    assert MerchantLinked(s, m);
    forall id | id in ids ensures EmissionOf(s.products, id) == EmissionOf(t.products, id) {
      assert id in s.products && s.products[id].merchant == m;
    }
    SumCarbonEmissionFrame(ids, s.products, t.products);
  }

  /** Re-deriving one product's emission and its owner's rating keeps every
      derived field of the catalogue up to date. */
  lemma RecomputeKeepsConsistent(s: Store, t: Store, productId: ProductId)
    requires WellFormed(s) && WellFormed(t) && productId in s.products
    requires t.ingredients == s.ingredients
    requires t.products.Keys == s.products.Keys && t.merchants.Keys == s.merchants.Keys
    requires t.products[productId].carbonEmission
          == TotalEmission(t.products[productId].ingredients, s.ingredients)
    requires forall id | id in s.products && id != productId :: t.products[id] == s.products[id]
    requires RatingUpToDate(t, s.products[productId].merchant)
    requires forall m | m in s.merchants && m != s.products[productId].merchant :: t.merchants[m] == s.merchants[m]
    ensures Consistent(s) ==> Consistent(t)
  {
    if Consistent(s) {
      var owner := s.products[productId].merchant;
      forall id | id in t.products ensures EmissionUpToDate(t, id) {
        if id != productId {
          assert EmissionUpToDate(s, id);
        }
      }
      forall m | m in t.merchants ensures RatingUpToDate(t, m) {
        if m != owner {
          assert RatingUpToDate(s, m);
          OtherMerchantSum(s, t, productId, m);
        }
      }
    }
  }

  // ---- The three operations ----

  /** addProductIngredient: product lookup, ingredient lookup, duplicate check, then
      insertion and re-derivation. Returns the outcome and the new catalogue. */
  ghost function Add(s: Store, productId: ProductId, dto: ProductIngredientDto): (out: (Result<ProductIngredient>, Store))
    requires WellFormed(s)
    ensures out.0 == NotExist(ProductEntity) <==> productId !in s.products
    ensures out.0 == NotExist(IngredientEntity) <==> productId in s.products && dto.name !in s.ingredients
    ensures out.0 == AlreadyExists(ProductIngredientEntity)
        <==> productId in s.products && dto.name in s.ingredients && dto.name in s.products[productId].ingredients
    ensures out.0.Ok?
        <==> productId in s.products && dto.name in s.ingredients && dto.name !in s.products[productId].ingredients
    ensures !out.0.Ok? ==>
      out.0.entity.Label()
      == (if productId !in s.products then "Product"
          else if dto.name !in s.ingredients then "Ingredient"
          else "Product Ingredient")
    ensures !out.0.Ok? ==> out.1 == s
    ensures WellFormed(out.1)
    ensures out.0.Ok? ==>
      && out.0.value == ProductIngredient(productId, Ingredient(dto.name, s.ingredients[dto.name]), dto.servingQty)
      && out.1 == Recompute(s, productId, s.products[productId].ingredients[dto.name := dto.servingQty])
  {
    var product := GetProductById(s, productId);
    if product.IsFailure() then (product.PropagateFailure(), s) else
    var ingredient := GetIngredientByName(s, dto.name);
    if ingredient.IsFailure() then (ingredient.PropagateFailure(), s) else
    if dto.name in product.value.ingredients then (AlreadyExists(ProductIngredientEntity), s) else
    var entity := MapToEntity(dto, productId, ingredient.value);
    var assocs := product.value.ingredients[dto.name := entity.servingQty];
    (Ok(entity), Recompute(s, productId, assocs))
  }

  /** updateProductIngredient: the two lookups, then the association lookup, then
      the serving quantity is replaced and both fields re-derived. */
  ghost function Update(s: Store, productId: ProductId, dto: ProductIngredientDto): (out: (Result<ProductIngredient>, Store))
    requires WellFormed(s)
    ensures out.0 == NotExist(ProductEntity) <==> productId !in s.products
    ensures out.0 == NotExist(IngredientEntity) <==> productId in s.products && dto.name !in s.ingredients
    ensures out.0 == NotExist(ProductIngredientEntity)
        <==> productId in s.products && dto.name in s.ingredients && dto.name !in s.products[productId].ingredients
    ensures out.0.Ok?
        <==> productId in s.products && dto.name in s.ingredients && dto.name in s.products[productId].ingredients
    ensures !out.0.AlreadyExists?
    ensures !out.0.Ok? ==>
      out.0.entity.Label()
      == (if productId !in s.products then "Product"
          else if dto.name !in s.ingredients then "Ingredient"
          else "Product Ingredient")
    ensures !out.0.Ok? ==> out.1 == s
    ensures WellFormed(out.1)
    ensures out.0.Ok? ==>
      && out.0.value == ProductIngredient(productId, Ingredient(dto.name, s.ingredients[dto.name]), dto.servingQty)
      && out.1 == Recompute(s, productId, s.products[productId].ingredients[dto.name := dto.servingQty])
      && out.1.products[productId].ingredients.Keys == s.products[productId].ingredients.Keys
  {
    var product := GetProductById(s, productId);
    if product.IsFailure() then (product.PropagateFailure(), s) else
    var ingredient := GetIngredientByName(s, dto.name);
    if ingredient.IsFailure() then (ingredient.PropagateFailure(), s) else
    var association := GetProductIngredientByIngredientAndProduct(s, ingredient.value, productId);
    if association.IsFailure() then (association.PropagateFailure(), s) else
    var updated := association.value.(servingQty := dto.servingQty);
    var assocs := product.value.ingredients[dto.name := updated.servingQty];
    (Ok(updated), Recompute(s, productId, assocs))
  }

  /** deleteProductIngredient: the two lookups, then the association lookup (its
      absence from the product's set is the same failure), then removal and
      re-derivation. */
  ghost function Delete(s: Store, productId: ProductId, name: string): (out: (Result<()>, Store))
    requires WellFormed(s)
    ensures out.0 == NotExist(ProductEntity) <==> productId !in s.products
    ensures out.0 == NotExist(IngredientEntity) <==> productId in s.products && name !in s.ingredients
    ensures out.0 == NotExist(ProductIngredientEntity)
        <==> productId in s.products && name in s.ingredients && name !in s.products[productId].ingredients
    ensures out.0.Ok?
        <==> productId in s.products && name in s.ingredients && name in s.products[productId].ingredients
    ensures !out.0.AlreadyExists?
    ensures !out.0.Ok? ==>
      out.0.entity.Label()
      == (if productId !in s.products then "Product"
          else if name !in s.ingredients then "Ingredient"
          else "Product Ingredient")
    ensures !out.0.Ok? ==> out.1 == s
    ensures WellFormed(out.1)
    ensures out.0.Ok? ==>
      && out.1 == Recompute(s, productId, s.products[productId].ingredients - {name})
      && out.1.products[productId].ingredients.Keys == s.products[productId].ingredients.Keys - {name}
  {
    var product := GetProductById(s, productId);
    if product.IsFailure() then (product.PropagateFailure(), s) else
    var ingredient := GetIngredientByName(s, name);
    if ingredient.IsFailure() then (ingredient.PropagateFailure(), s) else
    var association := GetProductIngredientByIngredientAndProduct(s, ingredient.value, productId);
    if association.IsFailure() then (association.PropagateFailure(), s) else
    var assocs := product.value.ingredients - {name};
    (Ok(()), Recompute(s, productId, assocs))
  }

  // ---- Properties relating several operations ----

  /** On a consistent catalogue a successful add keeps it consistent and raises the
      product's emission by exactly the new association's contribution. */
  lemma AddEmission(s: Store, productId: ProductId, dto: ProductIngredientDto)
    requires Consistent(s)
    requires Add(s, productId, dto).0.Ok?
    ensures var t := Add(s, productId, dto).1;
      && Consistent(t)
      && t.products[productId].carbonEmission
         == s.products[productId].carbonEmission + s.ingredients[dto.name] * dto.servingQty
  {
    var before := s.products[productId].ingredients;
    var t := Recompute(s, productId, before[dto.name := dto.servingQty]);
    assert Add(s, productId, dto).1 == t;
    assert EmissionUpToDate(s, productId);
    TotalEmissionInsert(before, s.ingredients, dto.name, dto.servingQty);
  }

  /** On a consistent catalogue a successful update keeps it consistent and changes
      the product's emission by the difference of the old and new contributions. */
  lemma UpdateEmission(s: Store, productId: ProductId, dto: ProductIngredientDto)
    requires Consistent(s)
    requires Update(s, productId, dto).0.Ok?
    ensures var t := Update(s, productId, dto).1;
      && Consistent(t)
      && t.products[productId].carbonEmission
         == s.products[productId].carbonEmission
            - s.ingredients[dto.name] * s.products[productId].ingredients[dto.name]
            + s.ingredients[dto.name] * dto.servingQty
  {
    assert EmissionUpToDate(s, productId);
    TotalEmissionReplace(s.products[productId].ingredients, s.ingredients, dto.name, dto.servingQty);
  }

  /** On a consistent catalogue a successful delete keeps it consistent and lowers
      the product's emission by exactly the removed association's contribution. */
  lemma DeleteEmission(s: Store, productId: ProductId, name: string)
    requires Consistent(s)
    requires Delete(s, productId, name).0.Ok?
    ensures var t := Delete(s, productId, name).1;
      && Consistent(t)
      && t.products[productId].carbonEmission
         == s.products[productId].carbonEmission - s.ingredients[name] * s.products[productId].ingredients[name]
  {
    assert EmissionUpToDate(s, productId);
    TotalEmissionRemove(s.products[productId].ingredients, s.ingredients, name);
  }


  /** A successful add followed by a delete of the same ingredient gives back the
      product's association set and its emission; on a consistent catalogue it
      gives back the whole catalogue, the merchant's rating included. */
  lemma AddThenDeleteRestores(s: Store, productId: ProductId, dto: ProductIngredientDto)
    requires WellFormed(s)
    requires Add(s, productId, dto).0.Ok?
    ensures var t := Add(s, productId, dto).1;
      && Delete(t, productId, dto.name).0.Ok?
      && Delete(t, productId, dto.name).1.products[productId].ingredients == s.products[productId].ingredients
      && Delete(t, productId, dto.name).1.products[productId].carbonEmission
         == TotalEmission(s.products[productId].ingredients, s.ingredients)
    ensures Consistent(s) ==> Delete(Add(s, productId, dto).1, productId, dto.name).1 == s
  {
    var before := s.products[productId].ingredients;
    var t := Add(s, productId, dto).1;
    var u := Delete(t, productId, dto.name).1;
    assert before[dto.name := dto.servingQty] - {dto.name} == before;
    if Consistent(s) {
      var owner := s.products[productId].merchant;
      assert EmissionUpToDate(s, productId);
      assert RatingUpToDate(s, owner);
      assert u.products[productId] == s.products[productId];
      assert u.products == s.products;
      assert u.merchants[owner] == s.merchants[owner];
      assert u.merchants == s.merchants;
    }
  }

  // ---- The service over mutable repositories ----

  /** The composition service. Its three fields are the repository contents; each
      operation looks entities up in the order of the source, stops at the first
      failure without changing anything, and otherwise changes the product's
      associations and re-derives both fields with the two aggregation loops. */
  class ProductService {
    var ingredients: map<string, real>
    var products: map<ProductId, Product>
    var merchants: map<MerchantName, Merchant>

    function State(): Store
      reads this
    {
      Store(ingredients, products, merchants)
    }

    ghost predicate Valid()
      reads this
    {
      WellFormed(State())
    }

    constructor (s: Store)
      requires WellFormed(s)
      ensures Valid() && State() == s
    {
      ingredients, products, merchants := s.ingredients, s.products, s.merchants;
    }

    /** Stores the new associations, then re-derives
        the product's emission and its merchant's rating, as the three operations do
        after their checks. */
    method Commit(productId: ProductId, product: Product, assocs: map<string, real>)
      requires Valid() && productId in products && products[productId] == product
      requires forall n | n in assocs :: n in product.ingredients || n in ingredients
      modifies this
      ensures State() == Recompute(old(State()), productId, assocs)
    {
      assert ProductLinked(State(), productId);
      assert MerchantLinked(State(), product.merchant);
      var emission := CalculateTotalEmissions(assocs, ingredients);
      products := products[productId := Product(assocs, emission, product.merchant)];
      var merchant := merchants[product.merchant];
      var rating := CalculateCarbonRating(merchant.products, products);
      merchants := merchants[product.merchant := merchant.(carbonRating := rating)];
    }

    method AddProductIngredient(productId: ProductId, dto: ProductIngredientDto) returns (r: Result<ProductIngredient>)
      requires Valid()
      modifies this
      ensures Valid()
      ensures Consistent(old(State())) ==> Consistent(State())
      ensures (r, State()) == Add(old(State()), productId, dto)
    {
      var product :- GetProductById(State(), productId);
      var ingredient :- GetIngredientByName(State(), dto.name);
      if dto.name in product.ingredients {
        return AlreadyExists(ProductIngredientEntity);
      }
      var entity := MapToEntity(dto, productId, ingredient);
      Commit(productId, product, product.ingredients[dto.name := entity.servingQty]);
      return Ok(entity);
    }

    method UpdateProductIngredient(productId: ProductId, dto: ProductIngredientDto) returns (r: Result<ProductIngredient>)
      requires Valid()
      modifies this
      ensures Valid()
      ensures Consistent(old(State())) ==> Consistent(State())
      ensures (r, State()) == Update(old(State()), productId, dto)
    {
      var product :- GetProductById(State(), productId);
      var ingredient :- GetIngredientByName(State(), dto.name);
      var association :- GetProductIngredientByIngredientAndProduct(State(), ingredient, productId);
      association := association.(servingQty := dto.servingQty);
      Commit(productId, product, product.ingredients[dto.name := association.servingQty]);
      return Ok(association);
    }

    method DeleteProductIngredient(productId: ProductId, name: string) returns (r: Result<()>)
      requires Valid()
      modifies this
      ensures Valid()
      ensures Consistent(old(State())) ==> Consistent(State())
      ensures (r, State()) == Delete(old(State()), productId, name)
    {
      var product :- GetProductById(State(), productId);
      var ingredient :- GetIngredientByName(State(), name);
      var association :- GetProductIngredientByIngredientAndProduct(State(), ingredient, productId);
      Commit(productId, product, product.ingredients - {association.ingredient.name});
      return Ok(());
    }
  }
}
