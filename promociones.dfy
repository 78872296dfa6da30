/**
 * The promotions page: it asks the backend for the dishes of the
 * 'promocion' category and shows them as product cards.  The request itself
 * is not modelled; its two outcomes are the methods `OnDishesLoaded` and
 * `OnLoadError`.
 */
module Promociones {
  import opened ProductModel
  import opened DishModel

  const PROMOCION := "promocion"

  class PromocionesComponent {
    var promociones: seq<Product>
    var isLoading: bool

    constructor()
      ensures promociones == [] && !isLoading
    {
      promociones := [];
      isLoading := false;
    }

    method NgOnInit()
      modifies this
      ensures isLoading && promociones == old(promociones)
    {
      CargarPromociones();
    }

    /** Start the request: the page shows its spinner until an answer
        arrives. */
    method CargarPromociones()
      modifies this
      ensures isLoading && promociones == old(promociones)
    {
      isLoading := true;
    }

    /** The request's `next`: one card per dish, in the order received. */
    method OnDishesLoaded(dishes: seq<Dish>)
      modifies this
      ensures promociones == DishesToProducts(dishes, PROMOCION) && !isLoading
    {
      promociones := DishesToProducts(dishes, PROMOCION);
      isLoading := false;
    }

    /** The request's `error`: no cards and no spinner. */
    method OnLoadError()
      modifies this
      ensures promociones == [] && !isLoading
    {
      isLoading := false;
      promociones := [];
    }
  }

  /** Every card the promotions page builds is an available promotion, and
      the page keeps the backend's order and ids (0 for a dish without one). */
  lemma LoadedPromotions(dishes: seq<Dish>)
    ensures var r := DishesToProducts(dishes, PROMOCION);
      && |r| == |dishes|
      && FilterCategory(r, PROMOCION) == r
      && forall k :: 0 <= k < |r| ==> r[k].disponible && r[k].id == dishes[k].id.GetOr(0)
  {
    FilterCategoryAll(DishesToProducts(dishes, PROMOCION), PROMOCION);
  }
}
