/** Entities of the product/ingredient composition core and the error outcomes
    its operations report instead of throwing. */
module Model {

  type ProductId = int

  /** A merchant is identified by its username. */
  type MerchantName = string

  /** Reference data: an ingredient, identified by its unique name. */
  datatype Ingredient = Ingredient(name: string, emissionPerGram: real)

  /** The association "product `productId` contains `ingredient` at `servingQty` grams". */
  datatype ProductIngredient = ProductIngredient(productId: ProductId, ingredient: Ingredient, servingQty: real)

  /** What a caller submits to add or update an association. */
  datatype ProductIngredientDto = ProductIngredientDto(name: string, servingQty: real)

  /** A product as far as the composition core sees it: its associations, keyed by
      ingredient name and giving the serving quantity, its derived carbon emission,
      and the merchant that owns it. */
  datatype Product = Product(ingredients: map<string, real>, carbonEmission: real, merchant: MerchantName)

  /** A merchant: the products it owns, in list order, and its derived carbon rating. */
  datatype Merchant = Merchant(products: seq<ProductId>, carbonRating: real)

  /** The kind of entity an error is about. */
  datatype Entity = ProductEntity | IngredientEntity | ProductIngredientEntity {
    /** The message the service attaches to its exception. */
    function Label(): (l: string)
      ensures l == "Product" <==> this == ProductEntity
      ensures l == "Ingredient" <==> this == IngredientEntity
      ensures l == "Product Ingredient" <==> this == ProductIngredientEntity
    {
      match this
      case ProductEntity => "Product"
      case IngredientEntity => "Ingredient"
      case ProductIngredientEntity => "Product Ingredient"
    }
  }

  /** Either a value or one of the two exceptions the service throws. */
  datatype Result<T> = Ok(value: T) | NotExist(entity: Entity) | AlreadyExists(entity: Entity) {

    predicate IsFailure() {
      !Ok?
    }

    /** The same failure at another value type. */
    function PropagateFailure<U>(): (r: Result<U>)
      requires !Ok?
      ensures r.NotExist? == NotExist? && r.AlreadyExists? == AlreadyExists? && r.entity == entity
    {
      match this
      case NotExist(e) => NotExist(e)
      case AlreadyExists(e) => AlreadyExists(e)
    }

    function Extract(): T
      requires Ok?
    {
      value
    }
  }
}
