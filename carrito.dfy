/**
 * The cart page: besides the cart itself it shows a fixed list of
 * recommended extras.
 */
module Carrito {
  import opened Options
  import opened ProductModel
  import opened DishModel
  import Cart

  /** The four recommendations, prices in cents; they carry only
      `imageUrl`. */
  const RECOMENDACIONES: seq<Product> := [
    Product(101, "Papas Fritas", "Porción grande de papas fritas crocantes.", 890, None, None,
            Some("https://www.donbelisario.com.pe/media/catalog/product/p/a/papas-fritas-tumbay_1.png"),
            "acompanamiento", true),
    Product(102, "Ensalada Fresca", "Mix de lechugas, tomate, pepino y palta.", 1250, None, None,
            Some("https://www.donbelisario.com.pe/media/catalog/product/e/n/ensalada-fresca_1_1.png"),
            "acompanamiento", true),
    Product(103, "Inca Kola 1.5L", "La bebida del sabor nacional.", 1000, None, None,
            Some("https://www.donbelisario.com.pe/media/catalog/product/i/n/inca-kola-1_5l_1.png"),
            "bebida", true),
    Product(104, "Tequeños de Pollo", "6 unidades con salsa de guacamole.", 1490, None, None,
            Some("https://www.donbelisario.com.pe/media/catalog/product/t/e/tequenos-brasa_1.png"),
            "acompanamiento", true)
  ]

  /** The side-dish mapping of this page (it is declared but nothing on the
      page calls it). */
  function SideDishFromDish(dish: Dish): Product {
    DishToProduct(dish, "acompanamiento")
  }

  class CarritoComponent {
    var recomendaciones: seq<Product>

    constructor()
      ensures recomendaciones == []
    {
      recomendaciones := [];
    }

    method NgOnInit()
      modifies this
      ensures recomendaciones == RECOMENDACIONES
    {
      CargarRecomendaciones();
    }

    method CargarRecomendaciones()
      modifies this
      ensures recomendaciones == RECOMENDACIONES
    {
      recomendaciones := RECOMENDACIONES;
    }
  }

  /** The recommendations are four available products with ids 101 to 104
      in that order. */
  lemma RecommendationsShape()
    ensures |RECOMENDACIONES| == 4
    ensures forall k :: 0 <= k < 4 ==> RECOMENDACIONES[k].id == 101 + k && RECOMENDACIONES[k].disponible
  {
  }

  /** Adding every recommendation to an empty cart gives four units costing
      S/ 46.30 together. */
  lemma AddAllRecommendations()
    ensures Cart.SumQuantities(Cart.AddAll([], RECOMENDACIONES)) == 4
    ensures Cart.SumSubtotals(Cart.AddAll([], RECOMENDACIONES)) == 4630
  {
    assert Cart.ProductIdsUnique(RECOMENDACIONES);
    Cart.AddDistinctFromEmpty(RECOMENDACIONES);
    assert Cart.SumPrices(RECOMENDACIONES) == 890 + 1250 + 1000 + 1490;
  }

  /** A side dish mapped by this page is available, of category
      'acompanamiento', with both image fields set to the dish's. */
  lemma SideDishMapping(dish: Dish)
    ensures var p := SideDishFromDish(dish);
      && p.id == dish.id.GetOr(0)
      && p.categoria == "acompanamiento" && p.disponible
      && p.imagen == dish.imageUrl && p.imageUrl == dish.imageUrl
      && ProductToDish(p).name == dish.name
  {
  }
}
