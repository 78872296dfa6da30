/**
 * A dish as the backend's menu service returns it.  The two pages that show
 * backend dishes turn them into catalogue products the same way, differing
 * only in the category they stamp on the result.
 */
module DishModel {
  import opened Options
  import opened ProductModel

  /** `Dish`.  `originalPrice` is not part of the declared interface; the
      pages read it anyway and get whatever the backend sent, if anything. */
  datatype Dish = Dish(
    id: Option<int>,
    name: string,
    description: string,
    price: int,
    imageUrl: Option<string>,
    originalPrice: Option<int>)

  /** The page-local `dishToProduct`: `dish.id || 0`, the texts and price
      copied, the one image reference used for both image fields, and the
      product always available. */
  function DishToProduct(dish: Dish, categoria: string): Product {
    Product(
      dish.id.GetOr(0),
      dish.name,
      dish.description,
      dish.price,
      dish.originalPrice,
      dish.imageUrl,
      dish.imageUrl,
      categoria,
      true)
  }

  /** What a product says about the dish it came from. */
  function ProductToDish(p: Product): Dish {
    Dish(Some(p.id), p.nombre, p.descripcion, p.precio, p.imageUrl, p.precioAnterior)
  }

  /** A dish that has an id survives the mapping intact, and one without an
      id comes back with id 0. */
  lemma DishRoundTrip(dish: Dish, categoria: string)
    ensures dish.id.Some? ==> ProductToDish(DishToProduct(dish, categoria)) == dish
    ensures dish.id.None? ==> ProductToDish(DishToProduct(dish, categoria)) == dish.(id := Some(0))
  {
  }

  /** The mapped products are exactly the available products of that
      category whose two image fields agree. */
  lemma DishProductsCharacterised(p: Product, categoria: string)
    ensures (exists dish :: DishToProduct(dish, categoria) == p)
        <==> p.categoria == categoria && p.disponible && p.imagen == p.imageUrl
  {
    if p.categoria == categoria && p.disponible && p.imagen == p.imageUrl {
      assert DishToProduct(ProductToDish(p), categoria) == p;
    }
  }

  /** `dishes.map(dish => dishToProduct(dish))`. */
  function DishesToProducts(dishes: seq<Dish>, categoria: string): (r: seq<Product>)
    ensures |r| == |dishes|
    ensures forall k :: 0 <= k < |r| ==> r[k] == DishToProduct(dishes[k], categoria)
    decreases |dishes|
  {
    if dishes == [] then []
    else [DishToProduct(dishes[0], categoria)] + DishesToProducts(dishes[1..], categoria)
  }
}
