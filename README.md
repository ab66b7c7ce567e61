# plantngo-backend: product/ingredient composition

A Dafny model of the composition manager in `ProductService` of the plantngo
backend. A product owns a set of product-ingredient associations. Each one says
"this product contains ingredient I at servingQty grams". The service checks and
changes these associations in three operations:

- add a new association;
- change the serving quantity of an existing one;
- delete one.

Every successful change then re-derives two fields:

- the product's `carbonEmission`, the sum of `emissionPerGram * servingQty` over
  its associations;
- the owning merchant's `carbonRating`, the mean of `carbonEmission` over the
  merchant's products.

The checks run in a fixed order, and each has its own error:

1. a missing product is `NotExist("Product")`;
2. a missing ingredient is `NotExist("Ingredient")`;
3. for add, an association that is already there is `AlreadyExists("Product Ingredient")`;
   for update and delete, a missing one is `NotExist("Product Ingredient")`.

A failure of one of these lookup and duplicate checks changes nothing. (The null-reference failures listed under "## Left out" come later and are not modelled.)

Files:

- `Model.dfy` (module `Model`): the entities (`Ingredient`, `ProductIngredient`,
  `ProductIngredientDto`, `Product`, `Merchant`) and the `Result` type that stands
  for the two exceptions.
- `Emission.dfy` (module `Emission`): the reference folds `TotalEmission` (over an
  unordered association map) and `Mean` (over a merchant's product list), lemmas
  about them, and the two accumulator loops of the service as methods proved
  equal to the folds.
- `Composition.dfy` (module `Composition`): the catalogue value `Store`, its
  invariants `WellFormed` (referential integrity) and `Consistent` (both derived
  fields equal their folds), the lookups, the three operations as functions on
  `Store` with their properties, and the class `ProductService`. The class keeps
  the three repositories as `map` fields and carries out each operation step by
  step. Each method is proved to produce exactly the outcome and state of the
  matching function.

A product's associations are a map from ingredient name to serving quantity.
That makes "at most one association per (product, ingredient) pair" hold by
construction. The association repository and the product's in-memory set are
one relation. So delete's two ways of failing to find the association (the
repository lookup at ProductService.java:120 and the set membership check at
ProductService.java:123-125) give the same `NotExist("Product Ingredient")`.

`Product.java` has no merchant field, while the service calls
`product.getMerchant()` (ProductService.java:82, 107, 130, 137). The model
follows the service: every product records the merchant that owns it.

## Model

| member | source | states |
|---|---|---|
| Model.Entity.Label | src/main/java/me/plantngo/backend/services/ProductService.java:47-60 | the three entity kinds carry the messages "Product", "Ingredient" and "Product Ingredient", and each message identifies its kind; Composition.Add, Composition.Update and Composition.Delete state which message each failure carries |
| Composition.GetProductById | src/main/java/me/plantngo/backend/services/ProductService.java:47-50 | succeeds exactly when the id is in the product repository and returns that product; otherwise NotExist("Product") |
| Composition.GetIngredientByName | src/main/java/me/plantngo/backend/services/ProductService.java:52-55 | succeeds exactly when the name is a known ingredient and returns it with its emission factor; otherwise NotExist("Ingredient") |
| Composition.GetProductIngredientByIngredientAndProduct | src/main/java/me/plantngo/backend/services/ProductService.java:57-60 | succeeds exactly when the product has an association for the ingredient and returns it with its serving quantity; otherwise NotExist("Product Ingredient") |
| Composition.MapToEntity | src/main/java/me/plantngo/backend/services/ProductService.java:159-169 | the new association links the given product and ingredient and takes its serving quantity from the submitted data |
| Composition.Recompute | src/main/java/me/plantngo/backend/services/ProductService.java:79-83 | after the product's associations are replaced, its emission is the total emission of the new associations and its owner's rating is the mean over the owner's products with the new emission. No other product or merchant changes, no key set changes, referential integrity is kept, and a consistent catalogue stays consistent |
| Composition.RecomputeKeepsConsistent | src/main/java/me/plantngo/backend/services/ProductService.java:79-83 | re-deriving one product's emission and its owner's rating leaves every derived field in the catalogue equal to its fold |
| Composition.OtherMerchantSum | src/main/java/me/plantngo/backend/services/ProductService.java:136-146 | a merchant that does not own the changed product has the same emission sum before and after |
| Composition.Add | src/main/java/me/plantngo/backend/services/ProductService.java:66-89 | NotExist("Product") iff the product is missing; NotExist("Ingredient") iff the product exists but the ingredient is missing; AlreadyExists("Product Ingredient") iff both exist and the pair already has an association; success iff none of these. A failure leaves the catalogue unchanged. A success returns the new association and inserts it with both fields re-derived. The failure's message is "Product", "Ingredient" or "Product Ingredient" according to the first check that fails |
| Composition.Update | src/main/java/me/plantngo/backend/services/ProductService.java:91-114 | the same lookup order, then NotExist("Product Ingredient") iff the association is missing; never AlreadyExists. A failure leaves the catalogue unchanged. A success returns the association with the new quantity, changes only that quantity, keeps the set of ingredient names, and re-derives both fields. The failure's message is "Product", "Ingredient" or "Product Ingredient" according to the first check that fails |
| Composition.Delete | src/main/java/me/plantngo/backend/services/ProductService.java:117-134 | the same lookup order, then NotExist("Product Ingredient") iff the association is missing; never AlreadyExists. A failure leaves the catalogue unchanged. A success removes exactly that association, keeps the others, and re-derives both fields. The failure's message is "Product", "Ingredient" or "Product Ingredient" according to the first check that fails |
| Composition.AddEmission | src/main/java/me/plantngo/backend/services/ProductService.java:76-83 | on a consistent catalogue a successful add keeps it consistent and raises the product's emission by emissionPerGram * servingQty of the new association |
| Composition.UpdateEmission | src/main/java/me/plantngo/backend/services/ProductService.java:99-108 | on a consistent catalogue a successful update keeps it consistent and changes the emission by the new contribution minus the old one |
| Composition.DeleteEmission | src/main/java/me/plantngo/backend/services/ProductService.java:127-131 | on a consistent catalogue a successful delete keeps it consistent and lowers the emission by the removed association's contribution |
| Composition.AddThenDeleteRestores | src/main/java/me/plantngo/backend/services/ProductService.java:76-81 | after a successful add, deleting the same ingredient succeeds and restores the product's associations and its emission; on a consistent catalogue it restores the whole catalogue, with the merchant's rating |
| Composition.ProductService.constructor | src/main/java/me/plantngo/backend/services/ProductService.java:32-37 | the service starts over the given well-formed repository contents |
| Composition.ProductService.Commit | src/main/java/me/plantngo/backend/services/ProductService.java:79-83 | storing the new associations, running the emission loop, then the rating loop produces the catalogue Composition.Recompute describes |
| Composition.ProductService.AddProductIngredient | src/main/java/me/plantngo/backend/services/ProductService.java:66-89 | the outcome and the new repository contents are those of Composition.Add on the old contents; referential integrity is kept, and a consistent catalogue (derived fields equal to their folds) stays consistent |
| Composition.ProductService.UpdateProductIngredient | src/main/java/me/plantngo/backend/services/ProductService.java:91-114 | the outcome and the new repository contents are those of Composition.Update on the old contents; referential integrity is kept, and a consistent catalogue (derived fields equal to their folds) stays consistent |
| Composition.ProductService.DeleteProductIngredient | src/main/java/me/plantngo/backend/services/ProductService.java:117-134 | the outcome and the new repository contents are those of Composition.Delete on the old contents; referential integrity is kept, and a consistent catalogue (derived fields equal to their folds) stays consistent |
| Emission.CalculateTotalEmissions | src/main/java/me/plantngo/backend/services/ProductService.java:148-157 | the loop's result is the total emission of the associations (0 for none); the association map is an input value and is not changed |
| Emission.TotalEmissionRemove | src/main/java/me/plantngo/backend/services/ProductService.java:148-157 | the total does not depend on the order of iteration: any one association can be taken out first |
| Emission.TotalEmissionInsert | src/main/java/me/plantngo/backend/services/ProductService.java:76-81 | inserting a new association adds exactly its contribution to the total |
| Emission.TotalEmissionReplace | src/main/java/me/plantngo/backend/services/ProductService.java:99-106 | changing one serving quantity changes the total by the new contribution minus the old one |
| Emission.TotalEmissionNonNegative | src/main/java/me/plantngo/backend/services/ProductService.java:148-157 | with non-negative factors and quantities the total is non-negative |
| Emission.CalculateCarbonRating | src/main/java/me/plantngo/backend/services/ProductService.java:136-146 | for a non-empty product list, the loop's result is the sum of the listed products' emissions divided by the list's length |
| Emission.SumCarbonEmissionFrame | src/main/java/me/plantngo/backend/services/ProductService.java:136-146 | the sum reads only the emissions of the listed products |
| Emission.SumCarbonEmissionBounds | src/main/java/me/plantngo/backend/services/ProductService.java:141-143 | a sum of n emissions that each lie in [lo, hi] lies in [n * lo, n * hi] |
| Emission.MeanBounds | src/main/java/me/plantngo/backend/services/ProductService.java:136-146 | the rating lies between the smallest and the largest product emission |
| Emission.MeanOfEqual | src/main/java/me/plantngo/backend/services/ProductService.java:136-146 | a merchant whose products all have the same emission is rated at that emission |

## Left out

- Persistence: the repository queries and writes (`findAll`, `findById`, `findByName`, `findByIngredientAndProduct`, `existsByIngredientAndProduct`, `save`) are reads and updates of the three maps. `getAllProducts`, `getAllProductIngredients` and `getAllProductsByMerchant` (ProductService.java:39-45, 62-64) are plain repository reads with nothing to model, and the ordering by emission in the last one is not modelled.
- Delete calls `save` rather than a delete. The row actually goes away through JPA orphan removal on the product's set (Product.java:71). The model removes the association directly.
- ModelMapper: `productIngredientMapToEntity` copies the DTO's fields with a reflection library. `MapToEntity` builds the record from (product, ingredient, servingQty) instead.
- Arithmetic: the source accumulates IEEE doubles. The model uses exact reals, so rounding and the order of summation do not affect the results.
- Emission.CalculateCarbonRating: requires a non-empty product list. The source divides without a guard, and 0/0 would give NaN. The list always contains the product just changed (`WellFormed`), so the precondition always holds where the service calls the method.
- Java set hashing: the remove-then-reinsert in update (ProductService.java:103-104) is a plain replacement of one quantity in the map. `ProductIngredient`'s equals and hashCode are not part of this model.
- Null references: the model has no null values, so it drops the NullPointerExceptions the source can throw after its checks have passed. These come after the source has already changed state in memory:
  - A null `servingQty` or `emissionPerGram` makes the emission loop throw at ProductService.java:152. In add this happens after :77 has put the new association into the product's set. In update it happens after :99 has set the association's quantity (to null).
  - A product without a merchant makes :82-83 (and :107-108, :130-131) throw after the product's set and its emission have been updated at :77-81 (:102-106, :127-129).
  - `WellFormed` assumes every product has an existing merchant that lists it, and every listed product exists; quantities and factors are exact reals, never absent. Under these assumptions an operation whose checks pass always succeeds, so the model does not capture these partial updates.
- Emission.TotalEmission and Emission.SumCarbonEmission: both are total. `FactorOf` gives an unknown ingredient a factor of 0, and `EmissionOf` gives an unknown product an emission of 0. `WellFormed` rules out both cases wherever the service uses them.
- Validation: `ProductIngredientDTO` and whatever constraints it declares on `servingQty` are not part of this model. The `@Valid` marks on the service's parameters (ProductService.java:66, 92, 159) are not backed by method validation on the class (ProductService.java:23), and nothing in the service checks the quantity, so the operations accept any quantity.
- Product and merchant fields that the composition core does not read (name, price, description, image, category, order items) are not modelled.
- Controllers, other services (`CustomerService`, `AWSS3Service`), promotions and DTOs other than the product-ingredient one are not part of this model.
- Concurrency and transactions: each operation runs to completion on its own.
