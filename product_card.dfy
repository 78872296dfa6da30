/**
 * The product card: shows one product's picture, offer badge and price, and
 * an "Agregar" button that puts the product in the cart.
 */
module ProductCard {
  import opened Options
  import opened ProductModel
  import opened ImageUtil
  import opened Cart

  /** `a || b` on two optional strings: the first one unless it is missing or
      empty. */
  function OrString(a: Option<string>, b: Option<string>): (r: Option<string>)
    ensures (a.Some? && a.value != "") ==> r == a
    ensures !(a.Some? && a.value != "") ==> r == b
  {
    if a.Some? && a.value != "" then a else b
  }

  /** The image reference the card resolves: `imageUrl`, else `imagen`. */
  function CardImage(p: Product): Option<string> {
    OrString(p.imageUrl, p.imagen)
  }

  /** `*ngIf="product.precioAnterior"`: a previous price of 0 is falsy. */
  predicate ShowsOffer(p: Product) {
    p.precioAnterior.Some? && p.precioAnterior.value != 0
  }

  /** `[disabled]="!product.disponible"`. */
  predicate AddButtonEnabled(p: Product) {
    p.disponible
  }

  class ProductCardComponent {
    var product: Product
    const cartService: CartService
    /** `environment.apiUrl`, fixed by the build. */
    const apiUrl: Option<string>

    constructor(product: Product, cartService: CartService, apiUrl: Option<string>)
      ensures this.product == product && this.cartService == cartService && this.apiUrl == apiUrl
    {
      this.product := product;
      this.cartService := cartService;
      this.apiUrl := apiUrl;
    }

    /** The `imgSrc` getter. */
    function ImgSrc(): string
      reads this
    {
      ResolveImageUrl(CardImage(product), apiUrl)
    }

    method AgregarProducto()
      modifies cartService
      ensures cartService.items == Added(old(cartService.items), product)
      ensures cartService.sidebarOpen == (old(cartService.sidebarOpen) || FindIndex(old(cartService.items), product.id) == -1)
      ensures old(cartService.Valid()) ==> cartService.Valid()
    {
      cartService.AddItem(product);
    }

    /** A click on the button: a disabled button delivers no click, so an
        unavailable product never reaches the cart. */
    method OnAddButtonClick()
      modifies cartService
      ensures AddButtonEnabled(product) ==> cartService.items == Added(old(cartService.items), product)
      ensures !AddButtonEnabled(product) ==>
                cartService.items == old(cartService.items) && cartService.sidebarOpen == old(cartService.sidebarOpen)
    {
      if AddButtonEnabled(product) {
        AgregarProducto();
      }
    }
  }

  /** The card prefers a non-empty `imageUrl`. */
  lemma ImgPrefersImageUrl(p: Product, apiUrl: Option<string>, u: string)
    requires p.imageUrl == Some(u) && u != ""
    ensures ResolveImageUrl(CardImage(p), apiUrl) == ResolveImageUrl(Some(u), apiUrl)
  {
  }

  /** With `imageUrl` missing or empty the card falls back to `imagen`. */
  lemma ImgFallsBackToImagen(p: Product, apiUrl: Option<string>)
    requires p.imageUrl.None? || p.imageUrl == Some("")
    ensures ResolveImageUrl(CardImage(p), apiUrl) == ResolveImageUrl(p.imagen, apiUrl)
  {
  }

  /** With neither image field usable the card shows the placeholder. */
  lemma ImgPlaceholder(p: Product, apiUrl: Option<string>)
    requires p.imageUrl.None? || p.imageUrl == Some("")
    requires p.imagen.None? || p.imagen == Some("")
    ensures ResolveImageUrl(CardImage(p), apiUrl) == FALLBACK_IMAGE
  {
  }

  /** In the catalogue exactly the promotions carry an offer badge, and
      every card's button is enabled. */
  lemma CatalogueOffers()
    ensures forall i :: 0 <= i < 6 ==> ShowsOffer(PRODUCTOS_MOCK[i])
    ensures forall i :: 6 <= i < |PRODUCTOS_MOCK| ==> !ShowsOffer(PRODUCTOS_MOCK[i])
    ensures forall i :: 0 <= i < |PRODUCTOS_MOCK| ==> AddButtonEnabled(PRODUCTOS_MOCK[i])
  {
    CatalogueAvailableDistinct();
  }
}
