/** The drinks page: the catalogue's products of category
    'bebida'. */
module Bebidas {
  import opened ProductModel

  class BebidasComponent {
    var bebidas: seq<Product>

    constructor()
      ensures bebidas == []
    {
      bebidas := [];
    }

    method NgOnInit()
      modifies this
      ensures bebidas == PRODUCTOS_MOCK[18..24]
    {
      CargarBebidas();
    }

    method CargarBebidas()
      modifies this
      ensures bebidas == FilterCategory(PRODUCTOS_MOCK, "bebida")
      ensures bebidas == PRODUCTOS_MOCK[18..24]
    {
      bebidas := FilterCategory(PRODUCTOS_MOCK, "bebida");
      CatalogueFilter();
    }
  }

  /** The page lists the six drinks, ids 31 to 36, in catalogue
      order. */
  lemma DrinksListed()
    ensures var r := FilterCategory(PRODUCTOS_MOCK, "bebida");
      |r| == 6 && forall k :: 0 <= k < 6 ==> r[k].id == 31 + k && r[k].categoria == "bebida"
  {
    CatalogueFilter();
    CatalogueBlocks();
    CatalogueIds();
    var r := FilterCategory(PRODUCTOS_MOCK, "bebida");
    var block := PRODUCTOS_MOCK[18..24];
    assert |block| == 6;
    assert r == block;
    forall k | 0 <= k < 6
      ensures r[k].id == 31 + k && r[k].categoria == "bebida"
    {
      var i := 18 + k;
      assert r[k] == PRODUCTOS_MOCK[i];
      assert PRODUCTOS_MOCK[i].id == i + 13;
    }
  }
}
