/** The side-dishes page: the catalogue's products of category
    'acompanamiento'. */
module Acompanamientos {
  import opened ProductModel

  class AcompComponent {
    var acompanamientos: seq<Product>

    constructor()
      ensures acompanamientos == []
    {
      acompanamientos := [];
    }

    method NgOnInit()
      modifies this
      ensures acompanamientos == PRODUCTOS_MOCK[12..18]
    {
      CargarAcompanamientos();
    }

    method CargarAcompanamientos()
      modifies this
      ensures acompanamientos == FilterCategory(PRODUCTOS_MOCK, "acompanamiento")
      ensures acompanamientos == PRODUCTOS_MOCK[12..18]
    {
      acompanamientos := FilterCategory(PRODUCTOS_MOCK, "acompanamiento");
      CatalogueFilter();
    }
  }

  /** The page lists the six side dishes, ids 21 to 26, in catalogue
      order. */
  lemma SideDishesListed()
    ensures var r := FilterCategory(PRODUCTOS_MOCK, "acompanamiento");
      |r| == 6 && forall k :: 0 <= k < 6 ==> r[k].id == 21 + k && r[k].categoria == "acompanamiento"
  {
    CatalogueFilter();
    CatalogueBlocks();
    CatalogueIds();
    var r := FilterCategory(PRODUCTOS_MOCK, "acompanamiento");
    var block := PRODUCTOS_MOCK[12..18];
    assert |block| == 6;
    assert r == block;
    forall k | 0 <= k < 6
      ensures r[k].id == 21 + k && r[k].categoria == "acompanamiento"
    {
      var i := 12 + k;
      assert r[k] == PRODUCTOS_MOCK[i];
      assert PRODUCTOS_MOCK[i].id == i + 9;
    }
  }
}
