# El Pollo Empoderado storefront, modelled in Dafny

A model of the client side of the El Pollo Empoderado restaurant shop, an
Angular single-page application, and proofs about that model.

The shop lists promotions, side dishes and drinks from a product catalogue.
Customers fill a cart kept in memory. Its sidebar opens when a new product
comes in, and each line has a quantity and a subtotal. A delivery form
collects the address before payment. Accounts are handled by an auth
service: the token, the e-mail and the roles (as JSON text) are kept in the
browser's local storage. The login, register and profile pages check their
forms and show one message per kind of failure. A build script writes the
environment file the app is compiled with.

The model has one module per source file, plus a few shared modules:

- `Options`: the option type.
- `JsValues`: JavaScript values, `??`, truthiness and `String()`.
- `Strings`: `trim`, `split`, `join`, `startsWith`, `includes`.
- `Guards`: the first failing check of an ordered chain of checks.
- `HttpErrors`: an HTTP error's status and body.
- `EmailPattern`: the e-mail regular expression.
- `RolesJson`: `JSON.stringify` and `JSON.parse` of a `string[]`.
- `KeyValueStore`: local storage.
- `ApiUrls`: the trimming of slashes from the API base and prefix.

Pure code is modelled as functions, with lemmas about them. A service or
component that updates its fields is modelled as a class. Its methods carry
`modifies` clauses and state the new value of every field. Those new values
are given by the pure functions the lemmas are about. Prices are integers
in cents. Outcomes of HTTP requests arrive through `On…` methods, one per
callback. A navigation is returned as the target path.

## Model

| member | source | states |
|---|---|---|
| Cart.NewItem | src/app/core/services/cart.service.ts:33-37 | a new line has the product's id, quantity 1 and subtotal equal to the product's price |
| Cart.FindIndex | src/app/core/services/cart.service.ts:25 | the index of the first line with the id, or -1 exactly when no line has it |
| Cart.RemovedMembers | src/app/core/services/cart.service.ts:47 | the filter keeps exactly the lines whose id differs: every kept line is such a line of the cart, and every such line is kept |
| Cart.RemovedAppend | src/app/core/services/cart.service.ts:47 | the filter distributes over concatenation, so the surviving lines keep their relative order |
| Cart.Requantified | src/app/core/services/cart.service.ts:56-67 | same length; each line with the id gets the new quantity and a subtotal of its own price times that quantity; every other line is unchanged |
| Cart.WithQuantity | src/app/core/services/cart.service.ts:59-63 | the re-quantified line keeps its product, takes the quantity, and its subtotal is price times quantity |
| Cart.CartService.constructor | src/app/core/services/cart.service.ts:9-10 | the cart starts empty with the sidebar closed |
| Cart.CartService.AddItem | src/app/core/services/cart.service.ts:23-43 | the new list is `Added(old list, p)`; the sidebar opens exactly when the product was not in the cart; the cart invariant is kept |
| Cart.CartService.RemoveItem | src/app/core/services/cart.service.ts:45-48 | the new list is the filter of the old one; the sidebar flag is unchanged; the invariant is kept |
| Cart.CartService.UpdateQuantity | src/app/core/services/cart.service.ts:50-68 | the new list is `Updated(old list, id, q)`: a removal when q <= 0, a re-quantify otherwise; the invariant is kept |
| Cart.CartService.ToggleSidebar | src/app/core/services/cart.service.ts:70-72 | the sidebar flag flips and the items stay |
| Cart.CartService.OpenSidebar | src/app/core/services/cart.service.ts:74-76 | the sidebar is open and the items stay |
| Cart.CartService.CloseSidebar | src/app/core/services/cart.service.ts:78-80 | the sidebar is closed and the items stay |
| Cart.EmptyInvariant | src/app/core/services/cart.service.ts:9 | the empty cart has unique ids and well-formed lines |
| Cart.RemovedInvariant | src/app/core/services/cart.service.ts:45-48 | removal keeps the invariant: unique ids, a quantity of at least 1 on each line, and subtotal = price × quantity |
| Cart.RemovedSubsequence | src/app/core/services/cart.service.ts:47 | filtering keeps the ids unique |
| Cart.UpdatedInvariant | src/app/core/services/cart.service.ts:50-68 | `updateQuantity` keeps the invariant for every quantity |
| Cart.AddedInvariant | src/app/core/services/cart.service.ts:23-43 | `addItem` keeps the invariant |
| Cart.AddNew | src/app/core/services/cart.service.ts:31-38 | adding an absent product appends exactly its new line and keeps every earlier line |
| Cart.AddExisting | src/app/core/services/cart.service.ts:27-29 | adding a present product keeps length and order, adds one unit to its line, reprices it from the stored price, and leaves the other lines alone |
| Cart.UpdateNonPositiveRemoves | src/app/core/services/cart.service.ts:51-54 | an update with quantity <= 0 is the removal of the id |
| Cart.AbsentIdNoop | src/app/core/services/cart.service.ts:45-68 | removing, re-quantifying or updating an id the cart does not hold changes nothing |
| Cart.UpdatePositive | src/app/core/services/cart.service.ts:56-67 | with unique ids, a positive update changes exactly the one line at the id's position |
| Cart.RequantifyRoundTrip | src/app/core/services/cart.service.ts:56-67 | setting a line to any quantity and then back to its old one restores the cart |
| Cart.SumsAppend | src/app/core/services/cart.service.ts:15-21 | the total and the count of a concatenation are the sums of the parts |
| Cart.RequantifiedSums | src/app/core/services/cart.service.ts:15-21 | re-quantifying the line at i changes the count by the change in quantity and the total by the change in subtotal |
| Cart.IncrementSums | src/app/core/services/cart.service.ts:29 | one more unit raises the count by 1 and the total by the line's stored price |
| Cart.AddedSums | src/app/core/services/cart.service.ts:23-43 | every `addItem` raises the count by exactly 1 and the total by the price of the line it touches |
| Cart.RemovedSplice | src/app/core/services/cart.service.ts:47 | filtering out the id of a line between two stretches that are kept whole joins the two stretches |
| Cart.RemovedSliceNoop | src/app/core/services/cart.service.ts:47 | a stretch with no line of the id survives the filter whole |
| Cart.RemoveOnly | src/app/core/services/cart.service.ts:47 | removing an id held only at position i cuts out exactly that position |
| Cart.RemoveAt | src/app/core/services/cart.service.ts:45-48 | with unique ids, removing the id at position i leaves `items[..i] + items[i+1..]` |
| Cart.RemovedSums | src/app/core/services/cart.service.ts:15-21 | removal lowers the count and the total by exactly the removed line's quantity and subtotal; an absent id lowers nothing |
| Cart.AddAllFresh | src/app/core/services/cart.service.ts:31-38 | adding distinct new products one by one appends a line each, and raises the count by their number and the total by the sum of their prices |
| Cart.AddDistinctFromEmpty | src/app/core/services/cart.service.ts:23-43 | from an empty cart, adding products with distinct ids gives a cart whose count is the number of products and whose total is the sum of their prices |
| SidebarCart.SidebarCartComponent.constructor | src/app/shared/components/sidebar-cart/sidebar-cart.component.ts:14 | the component holds the shared cart service |
| SidebarCart.SidebarCartComponent.CloseSidebar | src/app/shared/components/sidebar-cart/sidebar-cart.component.ts:16-18 | the sidebar closes and the items stay |
| SidebarCart.SidebarCartComponent.IncreaseQuantity | src/app/shared/components/sidebar-cart/sidebar-cart.component.ts:20-22 | the cart becomes `Updated(old, id, current + 1)`; the invariant is kept |
| SidebarCart.SidebarCartComponent.DecreaseQuantity | src/app/shared/components/sidebar-cart/sidebar-cart.component.ts:24-26 | the cart becomes `Updated(old, id, current - 1)`, which is the removal of the line when current <= 1 |
| SidebarCart.SidebarCartComponent.RemoveItem | src/app/shared/components/sidebar-cart/sidebar-cart.component.ts:28-30 | the cart loses every line with the id and the sidebar flag stays |
| SidebarCart.IncreaseThenDecrease | src/app/shared/components/sidebar-cart/sidebar-cart.component.ts:20-26 | "+" then "-" on a line of a well-formed cart gives back the same cart |
| SidebarCart.DecreaseLastUnit | src/app/shared/components/sidebar-cart/sidebar-cart.component.ts:24-26 | "-" on a line with one unit drops the line: one line fewer, the id gone, the count down by 1 and the total down by the price |
| ImageUtil.DropOneTrailingSlash | src/app/core/utils/image.util.ts:15 | `replace(/\/$/, '')` removes at most one final slash and nothing else |
| ImageUtil.RootedPath | src/app/core/utils/image.util.ts:16 | the path always starts with '/' |
| ImageUtil.ResolveFallback | src/app/core/utils/image.util.ts:10-11 | a missing or empty image gives the placeholder |
| ImageUtil.ResolveAbsolute | src/app/core/utils/image.util.ts:12-13 | an absolute URL comes back as the input with the surrounding whitespace cut off |
| ImageUtil.ResolveAbsoluteIdempotent | src/app/core/utils/image.util.ts:9-27 | resolving an already-resolved absolute URL gives the same URL |
| ImageUtil.ResolveRelative | src/app/core/utils/image.util.ts:15-26 | a relative path gives the base, then exactly one '/', then the trimmed path |
| ImageUtil.BaseDropsOneSlash | src/app/core/utils/image.util.ts:15 | the base loses one final slash; a base without one is kept; a missing `apiUrl` gives "" |
| ImageUtil.ResolveBlank | src/app/core/utils/image.util.ts:11-17 | a whitespace-only image is truthy and resolves to the base followed by "/" |
| ProductCard.OrString | src/app/shared/components/product-card/product-card.ts:246 | `a \|\| b` on optional strings: `a` when it is a non-empty string, otherwise `b` |
| ProductCard.ProductCardComponent.constructor | src/app/shared/components/product-card/product-card.ts:241-242 | the card holds its product, the cart service and the configured API URL |
| ProductCard.ProductCardComponent.AgregarProducto | src/app/shared/components/product-card/product-card.ts:253-255 | the cart becomes `Added(old, product)`, the sidebar opens for a new product, and the invariant is kept |
| ProductCard.ProductCardComponent.OnAddButtonClick | src/app/shared/components/product-card/product-card.ts:40-43 | a click adds the product exactly when it is available; the disabled button changes nothing |
| ProductCard.ImgPrefersImageUrl | src/app/shared/components/product-card/product-card.ts:244-247 | a non-empty `imageUrl` is the one resolved |
| ProductCard.ImgFallsBackToImagen | src/app/shared/components/product-card/product-card.ts:244-247 | without a usable `imageUrl`, `imagen` is the one resolved |
| ProductCard.ImgPlaceholder | src/app/shared/components/product-card/product-card.ts:244-247 | without either image the card shows the placeholder |
| ProductCard.CatalogueOffers | src/app/shared/components/product-card/product-card.ts:22 | in the catalogue, exactly the six promotions show the offer badge, and every product can be added |
| ProductModel.MapNonRecord | src/app/core/models/product.model.ts:18-51 | a nullish or non-object DTO, or an empty one, maps to the default product (id 0, empty texts, price 0, category "carta", available) |
| ProductModel.MapKeyPrecedence | src/app/core/models/product.model.ts:21-23 | name, description and price take the English key first, then the Spanish one, then the default |
| ProductModel.MapImageLookups | src/app/core/models/product.model.ts:24-25 | `imagen` looks up imagen, image_url, imageUrl in that order; `imageUrl` looks up image_url, imageUrl, imagen |
| ProductModel.MapCategory | src/app/core/models/product.model.ts:26-33 | the category comes from category, categoria or categoria_name, otherwise "carta"; an object category gives its `name` or "carta" |
| ProductModel.MapAvailability | src/app/core/models/product.model.ts:34 | `Boolean(available ?? disponible ?? true)`: the first present key decides by its truthiness (so 0 and "" give unavailable and the text "false" gives available); with neither key, available |
| ProductModel.MapPreviousPrice | src/app/core/models/product.model.ts:35-38 | a number is kept, a string is converted, anything else is absent |
| ProductModel.FilterCategoryMembers | src/app/features/acompanamientos/acompanamientos.ts:89 | the filter keeps exactly the products of the category |
| ProductModel.FilterCategoryAppend | src/app/features/acompanamientos/acompanamientos.ts:89 | the filter distributes over concatenation |
| ProductModel.FilterCategoryAll | src/app/features/acompanamientos/acompanamientos.ts:89 | a list all in the category is kept whole |
| ProductModel.FilterCategoryNone | src/app/features/acompanamientos/acompanamientos.ts:89 | a list with none in the category filters to empty |
| ProductModel.IncreasingIdsDistinct | src/app/core/models/product.model.ts:53-283 | ids that increase step by step are pairwise strictly increasing |
| ProductModel.FilterFourBlocks | src/app/core/models/product.model.ts:53-283 | filtering four concatenated blocks filters each block |
| ProductModel.BlockFilter | src/app/core/models/product.model.ts:53-283 | a block of one category filters to itself or to nothing |
| ProductModel.FilterCategoryBlocks | src/app/core/models/product.model.ts:53-283 | filtering four single-category blocks keeps exactly the blocks of that category |
| ProductModel.CatalogueBlocks | src/app/core/models/product.model.ts:53-283 | the catalogue has 24 products in four blocks of six: promotions, carta, side dishes, drinks |
| ProductModel.FilterCatalogueLayout | src/app/core/models/product.model.ts:53-283 | in a catalogue laid out that way, side dishes are positions 12-17 and drinks 18-23 |
| ProductModel.CatalogueFilter | src/app/core/models/product.model.ts:53-283 | filtering the catalogue by "acompanamiento" or "bebida" gives its third or fourth block |
| ProductModel.CatalogueIds | src/app/core/models/product.model.ts:53-283 | the ids are 1-6, 11-16, 21-26 and 31-36 |
| ProductModel.CatalogueAvailableDistinct | src/app/core/models/product.model.ts:53-283 | every catalogue product is available and the ids are distinct |
| DishModel.DishRoundTrip | src/app/features/promociones/promociones.ts:107-119 | turning a dish into a product and back gives the dish, except that a missing id comes back as 0 |
| DishModel.DishProductsCharacterised | src/app/features/promociones/promociones.ts:107-119 | a product comes from some dish exactly when it has the page's category, is available and has `imagen` equal to `imageUrl` |
| DishModel.DishesToProducts | src/app/features/promociones/promociones.ts:96 | the list has the same length, and each product is the mapping of the dish at the same position |
| Promociones.PromocionesComponent.constructor | src/app/features/promociones/promociones.ts:84-86 | no promotions and not loading |
| Promociones.PromocionesComponent.NgOnInit | src/app/features/promociones/promociones.ts:88-90 | the page starts loading |
| Promociones.PromocionesComponent.CargarPromociones | src/app/features/promociones/promociones.ts:92-94 | loading is on and the list stays until the answer |
| Promociones.PromocionesComponent.OnDishesLoaded | src/app/features/promociones/promociones.ts:95-98 | the list is the mapped dishes and loading is off |
| Promociones.PromocionesComponent.OnLoadError | src/app/features/promociones/promociones.ts:99-103 | the list is emptied and loading is off |
| Promociones.LoadedPromotions | src/app/features/promociones/promociones.ts:95-119 | one available product per dish, all in category "promocion", with the dish's id or 0 |
| Carrito.CarritoComponent.constructor | src/app/features/carrito/carrito.component.ts:20 | no recommendations |
| Carrito.CarritoComponent.NgOnInit | src/app/features/carrito/carrito.component.ts:22-24 | the four fixed recommendations are shown |
| Carrito.CarritoComponent.CargarRecomendaciones | src/app/features/carrito/carrito.component.ts:26-66 | the list is the four fixed recommendations |
| Carrito.RecommendationsShape | src/app/features/carrito/carrito.component.ts:28-65 | four available products with ids 101-104 |
| Carrito.AddAllRecommendations | src/app/features/carrito/carrito.component.ts:28-65 | adding the four to an empty cart gives 4 units and a total of 46.30 |
| Carrito.SideDishMapping | src/app/features/carrito/carrito.component.ts:68-80 | the mapped product has the dish's id or 0, category "acompanamiento", availability, and both image fields from `imageUrl`; the name survives the way back |
| Acompanamientos.AcompComponent.constructor | src/app/features/acompanamientos/acompanamientos.ts:82 | no side dishes |
| Acompanamientos.AcompComponent.NgOnInit | src/app/features/acompanamientos/acompanamientos.ts:84-86 | the six side dishes of the catalogue are listed |
| Acompanamientos.AcompComponent.CargarAcompanamientos | src/app/features/acompanamientos/acompanamientos.ts:88-90 | the list is the catalogue filtered by "acompanamiento", which is its third block |
| Acompanamientos.SideDishesListed | src/app/features/acompanamientos/acompanamientos.ts:89 | six products with ids 21-26 in catalogue order, all side dishes |
| Bebidas.BebidasComponent.constructor | src/app/features/bebidas/bebidas.ts:82 | no drinks |
| Bebidas.BebidasComponent.NgOnInit | src/app/features/bebidas/bebidas.ts:84-86 | the six drinks of the catalogue are listed |
| Bebidas.BebidasComponent.CargarBebidas | src/app/features/bebidas/bebidas.ts:88-90 | the list is the catalogue filtered by "bebida", which is its fourth block |
| Bebidas.DrinksListed | src/app/features/bebidas/bebidas.ts:89 | six products with ids 31-36 in catalogue order, all drinks |
| Envio.InvalidFields | src/app/features/carrito/envio/envio.component.ts:31-39 | a control is invalid exactly when its validator fails: city, district and receiver when empty, address when shorter than 5, phone unless nine digits; number and reference are never checked |
| Envio.EnvioComponent.constructor | src/app/features/carrito/envio/envio.component.ts:15-20 | subtotal 15.90, delivery 5.00, total 0, no form yet |
| Envio.EnvioComponent.NgOnInit | src/app/features/carrito/envio/envio.component.ts:24-27 | the initial form is built and the total is subtotal plus delivery |
| Envio.EnvioComponent.IniciarFormulario | src/app/features/carrito/envio/envio.component.ts:30-40 | the form holds the initial values |
| Envio.EnvioComponent.CalcularTotal | src/app/features/carrito/envio/envio.component.ts:42-44 | total = subtotal + delivery fee |
| Envio.EnvioComponent.SetFormValue | src/app/features/carrito/envio/envio.component.ts:31-39 | the form holds what the user typed; nothing else changes |
| Envio.EnvioComponent.IrAPagar | src/app/features/carrito/envio/envio.component.ts:47-62 | an invalid form is marked touched and gives the "complete the fields" alert and no data; a valid one gives its values and the "going to pay" alert |
| Envio.FormValidIff | src/app/features/carrito/envio/envio.component.ts:31-48 | the form passes exactly when city, district and receiver are non-empty, the address has at least 5 characters and the phone is nine ASCII digits |
| Envio.OptionalFieldsIgnored | src/app/features/carrito/envio/envio.component.ts:35-37 | the street number and the reference never affect validity |
| Envio.InitialFormInvalid | src/app/features/carrito/envio/envio.component.ts:31-39 | the initial form fails on exactly the address and the phone |
| Envio.InitialFormCompleted | src/app/features/carrito/envio/envio.component.ts:31-39 | filling a 5-character address and a 9-digit phone into the initial form makes it pass |
| Strings.Trim | src/app/core/utils/image.util.ts:12 | `trim()`: a slice of the input with only whitespace cut off either side, and no whitespace left at either edge |
| Strings.TrimKeeps | src/app/core/utils/image.util.ts:12 | trimming a text without edge whitespace changes nothing |
| Strings.TrimAllWhitespace | src/app/core/utils/image.util.ts:12 | an all-whitespace text trims to "" |
| Strings.IndexOfChar | src/app/features/profile/profile.ts:164 | the first position of the character, or -1 exactly when it is absent |
| Strings.Split | src/app/features/profile/profile.ts:164 | `split(sep)`: at least one piece, no piece holds the separator, and the pieces joined with it give the input back |
| Strings.SplitJoin | src/app/features/profile/profile.ts:164-166 | joining separator-free pieces and splitting again gives the pieces back |
| Strings.StripTrailing | src/app/services/auth.ts:45 | `replace(/\/+$/, '')`: a prefix of the input whose cut-off tail is all slashes, and which does not end in one |
| Strings.FirstPiece | src/app/shared/navbar/navbar.ts:32 | `split('@')[0]`: the text before the first '@', or all of it |
| ApiUrls.NormBase | src/app/services/auth.ts:45 | the base is a prefix of `apiUrl`, no longer ends in '/', and only slashes were removed |
| ApiUrls.NormPrefix | src/app/services/auth.ts:46 | the prefix is the middle of `apiPrefix`, with only slashes removed on either side, and it has no slash at either end |
| ApiUrls.JoinRootShape | src/app/services/auth.ts:47 | a clean base and prefix join with single slashes: base, '/', prefix, '/', resource, or base, '/', resource |
| ApiUrls.ServiceRootShape | src/app/services/auth.ts:44-48 | the service root never holds a doubled slash where base, prefix and resource meet |
| ApiUrls.NormalisationIdempotent | src/app/services/auth.ts:45-46 | normalising a normalised base or prefix changes nothing |
| ApiUrls.CleanValuesUnchanged | src/app/services/auth.ts:45-46 | a base or prefix already without the slashes is kept as is |
| ApiUrls.SlashOnlyPrefix | src/app/services/auth.ts:46-47 | a prefix of slashes only counts as no prefix |
| KeyValueStore.Store.constructor | src/app/services/auth.ts:137-139 | the store holds the given entries |
| KeyValueStore.Store.GetItem | src/app/services/auth.ts:137-139 | `getItem` gives the value exactly when the key is present |
| KeyValueStore.Store.SetItem | src/app/services/auth.ts:141-143 | `setItem` maps the key to the value and keeps the other keys |
| KeyValueStore.Store.RemoveItem | src/app/services/auth.ts:125-127 | `removeItem` drops exactly that key |
| RolesJson.HexDigit | src/app/services/auth.ts:70 | a hexadecimal digit reads back as its value |
| RolesJson.EscapeChar | src/app/services/auth.ts:70 | a character is escaped (more than one character) exactly when it is a control character, a quote or a backslash |
| RolesJson.Stringify | src/app/services/auth.ts:70 | the text is bracketed |
| RolesJson.EscapeCharRoundTrip | src/app/services/auth.ts:70-159 | reading back one escaped character gives the character |
| RolesJson.StringBodyRoundTrip | src/app/services/auth.ts:70-159 | reading back an escaped string body followed by the closing quote gives the string and the rest |
| RolesJson.ElementsRoundTrip | src/app/services/auth.ts:70-159 | reading back the encoded elements gives the list |
| RolesJson.ParseStringify | src/app/services/auth.ts:70-160 | `JSON.parse(JSON.stringify(roles))` gives the roles back, for every list of strings |
| Auth.BearerHeader | src/app/services/auth.ts:171 | "Bearer " and the token, or "Bearer null" without one |
| Auth.AuthService.constructor | src/app/services/auth.ts:37-40 | no API URL yet; signed in exactly when a non-empty token is stored |
| Auth.AuthService.NormalizeApi | src/app/services/auth.ts:44-48 | the API URL is the normalised service root for "auth" |
| Auth.AuthService.EnsureApiUrl | src/app/services/auth.ts:57-59 | the URL is normalised only when it is still empty |
| Auth.AuthService.Login | src/app/services/auth.ts:54-61 | posts the e-mail and password to the service root + "/login", normalising first when needed |
| Auth.AuthService.OnLoginResponse | src/app/services/auth.ts:63-73 | stores the token, the e-mail and the roles as JSON; afterwards the user is signed in exactly when the token is non-empty, and the e-mail, roles and admin flag read back as the response's |
| Auth.AuthService.Register | src/app/services/auth.ts:81-109 | posts the seven fields to the service root + "/register" |
| Auth.AuthService.OnRegisterResponse | src/app/services/auth.ts:110-118 | a registration stores nothing and does not sign in |
| Auth.AuthService.Logout | src/app/services/auth.ts:124-135 | the three session keys are removed; afterwards signed out, no e-mail, no roles, not admin; goes to /login |
| Auth.AuthService.GetAuthHeaders | src/app/services/auth.ts:167-173 | the JSON content type, then "Authorization" with "Bearer " and the stored token; "Bearer null" when no token is stored and "Bearer " for an empty one |
| Auth.LoginStoresSession | src/app/services/auth.ts:68-165 | after login the token and e-mail read back, roles parse back to the response's, and admin is exactly "ADMIN" or "ROLE_ADMIN" among them |
| Auth.LoginKeepsOtherKeys | src/app/services/auth.ts:68-70 | login leaves every other storage key as it was |
| Auth.LogoutClearsSession | src/app/services/auth.ts:124-165 | after logout no token or e-mail, roles read as [], not admin, and the other keys are kept |
| Auth.EmptyTokenSignedOut | src/app/services/auth.ts:145-151 | an empty stored token counts as signed out |
| Users.UserService.constructor | src/app/services/user.service.ts:42-48 | the user and admin roots are the normalised service roots for "user" and "users" |
| Users.UserService.OnProfileUpdated | src/app/services/user.service.ts:74-82 | after an update the stored e-mail is the request's when that is non-empty |
| Users.AdminRootExtendsUserRoot | src/app/services/user.service.ts:46-47 | the admin root is the user root plus "s" |
| Users.UserAndAuthShareRoot | src/app/services/user.service.ts:44-47 | the user and auth roots differ only in the last segment |
| Users.AllUsersDefaults | src/app/services/user.service.ts:108-112 | with no arguments the listing asks for page 0 of size 10 |
| Users.ProfileUpdateEmail | src/app/services/user.service.ts:79-81 | a non-empty e-mail replaces the stored one and only that key; otherwise storage is unchanged |
| Navbar.UsernameFromEmail | src/app/shared/navbar/navbar.ts:32 | the local part of the stored e-mail, or "Usuario" when it is missing or empty |
| Navbar.NavbarComponent.constructor | src/app/shared/navbar/navbar.ts:18-20 | signed out, no name, dropdown closed |
| Navbar.NavbarComponent.OnAuthStateChange | src/app/shared/navbar/navbar.ts:23-37 | the flag follows the stream; the profile is fetched exactly when signed in; signing out clears the name |
| Navbar.NavbarComponent.NgOnInit | src/app/shared/navbar/navbar.ts:22-39 | subscribes and takes the current state at once (the subject replays it) |
| Navbar.NavbarComponent.OnProfileFetched | src/app/shared/navbar/navbar.ts:28-30 | the name is the user's first name |
| Navbar.NavbarComponent.OnProfileFetchError | src/app/shared/navbar/navbar.ts:31-33 | the name comes from the stored e-mail |
| Navbar.NavbarComponent.ToggleDropdown | src/app/shared/navbar/navbar.ts:41-43 | the dropdown flips |
| Navbar.NavbarComponent.CloseDropdown | src/app/shared/navbar/navbar.ts:45-47 | the dropdown closes |
| Navbar.NavbarComponent.OnDocumentClick | src/app/shared/navbar/navbar.ts:49-55 | a click outside the user menu closes the dropdown; one inside leaves it |
| Navbar.NavbarComponent.OnLogout | src/app/shared/navbar/navbar.ts:57-61 | the dropdown closes, the session is cleared, the bar shows signed out, and the route is /login |
| Navbar.UsernameOfTypicalEmail | src/app/shared/navbar/navbar.ts:32 | "local@domain" gives "local" |
| Guards.FirstFailure | src/app/features/register/register.ts:44-75 | no message exactly when every check passes; otherwise the message of the first failing check |
| Guards.FirstFailureAt | src/app/features/register/register.ts:44-75 | when check k fails and all before it pass, its message is the one shown |
| HttpErrors.TextOr | src/app/features/profile/profile.ts:240 | `x \|\| fallback`: the text of a truthy value, otherwise the fallback |
| HttpErrors.MessageOr | src/app/features/login/login.ts:79 | `error?.message \|\| fallback` is never empty when the fallback is not |
| HttpErrors.MessageOrCases | src/app/features/login/login.ts:79 | a non-empty string `message` is shown; a non-object body or a missing or falsy message gives the fallback |
| JsValues.TruthyTextNonEmpty | src/app/features/register/register.ts:115-124 | a truthy value never prints as "" |
| EmailPattern.EmailCheckMatchesRegex | src/app/features/register/register.ts:138-141 | the executable check accepts exactly the strings the pattern `^[^\s@]+@[^\s@]+\.[^\s@]+$` matches |
| EmailPattern.ValidEmailMatches | src/app/features/login/login.ts:89-92 | an accepted e-mail splits as local part, '@', domain, '.', suffix |
| EmailPattern.MatchIsValid | src/app/features/login/login.ts:89-92 | any such split is accepted |
| Login.RedirectFor | src/app/features/login/login.ts:62-68 | /admin exactly when the roles are an array holding "ADMIN" or "ROLE_ADMIN", else /profile |
| Login.LoginErrorMessage | src/app/features/login/login.ts:74-80 | 401 and 403 give the credentials message, 0 the connection message, and any other status the body's message or the generic one |
| Login.PrefillEmail | src/app/features/login/login.ts:29-31 | a present, non-empty `email` parameter is used |
| Login.LoginComponent.constructor | src/app/features/login/login.ts:19-24 | empty fields, hidden password, no messages, not loading |
| Login.LoginComponent.OnQueryParams | src/app/features/login/login.ts:28-36 | the e-mail is prefilled, and the success message is shown for a truthy `registered` |
| Login.LoginComponent.OnSubmit | src/app/features/login/login.ts:40-56 | the first failing check sets its message and nothing is sent; otherwise loading starts and the credentials go to the auth root + "/login", the root being computed from the environment on the first submission and kept afterwards |
| Login.LoginComponent.OnLoginSuccess | src/app/features/login/login.ts:57-68 | loading stops and the route is chosen by the roles |
| Login.LoginComponent.OnLoginError | src/app/features/login/login.ts:70-81 | loading stops and the message is the one for the error |
| Login.LoginComponent.TogglePasswordVisibility | src/app/features/login/login.ts:85-87 | the password visibility flips |
| Login.LoginCheckOrder | src/app/features/login/login.ts:43-51 | an empty field is reported before a malformed e-mail; the form passes exactly when both fields are filled and the e-mail matches |
| Login.RedirectMatchesStoredRole | src/app/features/login/login.ts:62-68 | the page sends to /admin exactly when the session just stored makes `isAdmin()` true |
| Register.GuardChainIsFirstFailure | src/app/features/register/register.ts:44-75 | the chain of early returns reports the first failing check of the list |
| Register.RegisterErrorMessage | src/app/features/register/register.ts:115-125 | status 0 gives the connection message; otherwise a truthy backend message is shown, else the 400 or the generic fallback |
| Register.RegisterComponent.constructor | src/app/features/register/register.ts:19-34 | empty fields, unchecked boxes, hidden passwords, no message |
| Register.RegisterComponent.OnSubmit | src/app/features/register/register.ts:38-102 | the first failing check sets its message and nothing is sent; otherwise loading starts and the seven fields go to the auth root + "/register", the root being computed from the environment on the first submission and kept afterwards |
| Register.RegisterComponent.OnRegisterSuccess | src/app/features/register/register.ts:103-108 | loading stops and the route is /login with `registered=1` and the e-mail |
| Register.RegisterComponent.OnRegisterError | src/app/features/register/register.ts:109-126 | loading stops and the message is the one for the error |
| Register.RegisterComponent.TogglePasswordVisibility | src/app/features/register/register.ts:130-132 | the password visibility flips |
| Register.RegisterComponent.ToggleConfirmPasswordVisibility | src/app/features/register/register.ts:134-136 | the confirmation's visibility flips |
| Register.RegisterCheckOrder | src/app/features/register/register.ts:44-75 | each message is shown exactly when all earlier checks pass and its own fails; the form passes exactly when all six hold |
| Register.DniContentIgnored | src/app/features/register/register.ts:55 | only the DNI's length is checked, not its characters |
| Register.RedirectReachesLogin | src/app/features/register/register.ts:107 | the login page, given these parameters, shows the success message and prefills the e-mail |
| Register.RegisterErrorBodies | src/app/features/register/register.ts:115-117 | a string body, an object's message, or else the object as JSON is what is shown |
| Profile.PasswordMatchValidator | src/app/features/profile/profile.ts:76-84 | `{passwordMismatch}` exactly when the new password and the confirmation differ |
| Profile.SplitAtFirstSpace | src/app/features/profile/profile.ts:163-166 | cutting at the first space gives the same names as split, slice and join |
| Profile.ProfileUpdate | src/app/features/profile/profile.ts:168-172 | the request carries both names and the form's e-mail, and no address |
| Profile.ExtractErrorMessage | src/app/features/profile/profile.ts:311-319 | a message exactly when the error is an object with a string `message` |
| Profile.TimeoutMessage | src/app/features/profile/profile.ts:97-101 | "Error: " and the message when there is a non-empty one, otherwise the "server does not answer" text |
| Profile.PasswordErrorMessage | src/app/features/profile/profile.ts:250-254 | 400 and 401 give the body's message or "wrong current password"; any other status the generic text |
| Profile.ProfileComponent.constructor | src/app/features/profile/profile.ts:22-36 | loading, no profile, no messages, not editing |
| Profile.ProfileComponent.InitForms | src/app/features/profile/profile.ts:56-71 | both forms start empty; every other field is unchanged |
| Profile.ProfileComponent.LoadUserProfile | src/app/features/profile/profile.ts:89-92 | loading starts and the error is cleared; every other field is unchanged |
| Profile.ProfileComponent.NgOnInit | src/app/features/profile/profile.ts:44-47 | the forms are built and loading starts; every other field is unchanged |
| Profile.ProfileComponent.PopulateProfileForm | src/app/features/profile/profile.ts:123-128 | the form holds "first last" and the e-mail; every other field is unchanged |
| Profile.ProfileComponent.OnProfileLoaded | src/app/features/profile/profile.ts:107-112 | the profile is stored, the form filled, and loading stops; every other field is unchanged |
| Profile.ProfileComponent.OnProfileLoadError | src/app/features/profile/profile.ts:113-116 | only the last error is remembered; every other field is unchanged |
| Profile.ProfileComponent.OnLoadingTimeout | src/app/features/profile/profile.ts:94-104 | still loading: the timeout message is shown and loading stops; otherwise nothing changes |
| Profile.ProfileComponent.EnableEditProfile | src/app/features/profile/profile.ts:132-136 | editing on, profile error and success message cleared; every other field is unchanged |
| Profile.ProfileComponent.CancelEditProfile | src/app/features/profile/profile.ts:141-147 | editing off, and the form is refilled from the stored profile when there is one; every other field is unchanged |
| Profile.ProfileComponent.SaveProfile | src/app/features/profile/profile.ts:152-174 | an invalid form sets the "fix the fields" error and sends nothing; a valid one starts saving and sends the split names and the e-mail; every other field is unchanged |
| Profile.ProfileComponent.OnProfileSaved | src/app/features/profile/profile.ts:175-180 | the new profile is stored, saving and editing stop, and the success message shows; every other field is unchanged |
| Profile.ProfileComponent.OnProfileSaveError | src/app/features/profile/profile.ts:185-189 | saving stops and the body's message or the fallback is shown; every other field is unchanged |
| Profile.ProfileComponent.EnableChangePassword | src/app/features/profile/profile.ts:196-201 | editing the password, messages cleared, form reset to nulls; every other field is unchanged |
| Profile.ProfileComponent.CancelChangePassword | src/app/features/profile/profile.ts:206-210 | not editing, error cleared, form reset to nulls; every other field is unchanged |
| Profile.ProfileComponent.SavePassword | src/app/features/profile/profile.ts:215-235 | the guard as written (`passwordForm.invalid` first, so a mismatch gets "completa todos los campos"): a rejected form sets that message and sends nothing; otherwise saving starts and the current and new passwords are sent; the profile part is unchanged |
| Profile.ProfileComponent.OnPasswordChanged | src/app/features/profile/profile.ts:236-241 | saving and editing stop, the form resets, and the response's message or the default is shown; every other field is unchanged |
| Profile.ProfileComponent.OnPasswordChangeError | src/app/features/profile/profile.ts:246-255 | saving stops and the message for the status is shown; every other field is unchanged |
| Profile.ProfileComponent.OnLogout | src/app/features/profile/profile.ts:272-277 | the session is cleared and the route is /login |
| Profile.MismatchMessageUnreachable | src/app/features/profile/profile.ts:215-224 | as written, the "passwords do not match" message can never be shown; a rejected form always gets the "fix the fields" text |
| Profile.MismatchExample | src/app/features/profile/profile.ts:215-224 | a concrete form with valid controls and a mismatching confirmation gets the wrong message as written and the intended one when corrected |
| Profile.IntendedPasswordGuard | src/app/features/profile/profile.ts:215-224 | corrected: the mismatch message shows exactly when the controls are valid and the passwords differ; the same forms are accepted as before |
| Profile.AcceptedPasswordForm | src/app/features/profile/profile.ts:215-224 | an accepted form has both passwords at least 6 long and a matching confirmation |
| Profile.ResetFormRejected | src/app/features/profile/profile.ts:200-219 | the form that `reset()` leaves is rejected as incomplete, though the passwords "match" |
| Profile.SplitAtSpaceRoundTrip | src/app/features/profile/profile.ts:164-166 | on a trimmed name, first + " " + last gives the name back, and a single word is used for both |
| Profile.SplitRoundTrip | src/app/features/profile/profile.ts:163-166 | the names put back together give the trimmed full name |
| Profile.PopulateThenSplit | src/app/features/profile/profile.ts:123-166 | splitting the "first last" the form was filled with gives back the first and last names when the first has no space |
| Profile.TimeoutMessages | src/app/features/profile/profile.ts:97-101 | an object with a message gives "Error: " and the message; anything else, null included, gives the silent-server text |
| SetEnv.Or | scripts/set-env.js:23-33 | `x \|\| fallback` on a variable: the value when set and non-empty, otherwise the fallback |
| SetEnv.SelectEnvironment | scripts/set-env.js:5 | the first argument, or "local" when it is missing or empty |
| SetEnv.EnvFileName | scripts/set-env.js:10 | .env.prod, .env.dev or .env |
| SetEnv.OutputPath | scripts/set-env.js:60-62 | environment.prod.ts exactly for "prod", environment.ts otherwise |
| SetEnv.SystemConfig | scripts/set-env.js:22-34 | without a .env file the configuration has exactly the seven keys, and a variable set to a non-empty value is the value taken |
| SetEnv.Settings | scripts/set-env.js:48-56 | production is on exactly for PRODUCTION "true" or the prod environment; debugging is off exactly for ENABLE_DEBUG "false"; a non-empty API_URL, API_PREFIX, API_VERSION, APP_NAME or TOKEN_KEY is written as it is; the text settings other than the version are never empty |
| SetEnv.Run | scripts/set-env.js:5-65 | the file written is the environment's; with a .env file its values are used and no warning is given |
| SetEnv.ConfiguredValuesWritten | scripts/set-env.js:15-55 | every text setting given a non-empty value, in the .env file when there is one and otherwise in the variables, is written as it is |
| SetEnv.SystemFlags | scripts/set-env.js:22-54 | without a .env file: production exactly in prod or with PRODUCTION "true"; debugging off exactly for "false" or unset in prod; the warning exactly in prod with a localhost API URL |
| SetEnv.Defaults | scripts/set-env.js:23-33 | without a file or variables each setting is its environment's default |
| SetEnv.NoArgumentIsLocal | scripts/set-env.js:5-62 | without an argument the local environment is built from .env into environment.ts |

## Left out

- Time: the five-second timer that hides the login page's registration message, the timer that clears the profile page's success messages after three seconds, and the scheduling of the profile page's ten-second loading timeout. The timeout itself is the method `OnLoadingTimeout`, which the caller invokes.
- HTTP: a request is returned as its URL and body. Its outcome comes back through the `On…` methods, and the HTTP client, headers object and observables are not modelled.
- Router and browser: a navigation is returned as the path, and an `alert` as its text. `console` output and `event.preventDefault()` are not modelled.
- DOM: the card's `onImgError` handler, which swaps the image source, is left out. For the navbar's document click, the result of `closest('.user-menu')` is a boolean parameter.
- Carrito.CarritoComponent: `navegarAEnvio` only navigates to /envio and is not modelled.
- Numbers: prices are integers in cents. JavaScript's `Number()` is a parameter of the product mapper, so NaN and floating-point rounding are not modelled.
- ProductModel.MapDtoToProduct: the image fields keep only text values. `as string | undefined` is erased at run time, so a record whose image key holds a number or an object passes that value through in the program, while the model reads it as absent.
- String lengths count Dafny characters, where Angular's `minLength` and `.length` count UTF-16 code units.
- Profile.ProfileComponent.SaveProfile: the verdict of Angular's `Validators.email` is the parameter `emailFormatOk`, because that validator's pattern is not reproduced.
- Profile.ProfileComponent.SavePassword: runs the guard as written, as the page does. The corrected guard `SavePasswordGuard` is stated beside it, and `IntendedPasswordGuard` proves that it accepts exactly the same forms, so the two differ only in the message shown for a mismatch.
- RolesJson.ParseStringify: `JSON.parse` is modelled only on compact arrays of strings, which is everything `JSON.stringify` writes for a `string[]`. Other JSON, `\u` escapes of surrogate pairs, and stored roles that are not an array are not modelled.
- Register.RegisterErrorMessage: `JSON.stringify` of an error body is the parameter `stringify`.
- The components' `…Invalid` getters, which read the `touched` state of the form controls, are not modelled. Only `markAllAsTouched` is recorded, as the envio page's `allTouched` flag.
- Envio.EnvioComponent.IrAPagar: it requires the form to have been built, as `ngOnInit` does before the page can be used. The `envioForm!` field is never read before that.
- SetEnv.Run: the script's file I/O, the dotenv parser, `toUpperCase` in the console lines and the text layout of the generated file are not modelled. The result is the output path, the settings written and whether the warning is printed.
- ImageUtil: the debug logging is not modelled.
- `ngOnDestroy` and `clearLoadingTimeout` on the profile page are not modelled. They only cancel the timer.
- The product's `originalPrice` is read from `Dish` by the promotions and carrito mappers, but the `Dish` type in src/app/core/models/dish.model.ts does not declare it. The model treats it as an optional number on the dish.

## Findings

| source | as written | input that shows it | evidently intended | confidence | as-written member | corrected member |
|---|---|---|---|---|---|---|
| src/app/features/profile/profile.ts:215-224 | `passwordForm.invalid` is tested first, and it is already true when the group validator reports `passwordMismatch`. So the later `passwordMismatch` branch never runs, and a mismatch is reported as "Por favor, completa todos los campos correctamente" | current "secreto1", new "abcdef", confirmation "abcdeg" | a form whose controls are valid but whose confirmation differs shows "Las contraseñas no coinciden" | high, not executed | Profile.MismatchMessageUnreachable | Profile.IntendedPasswordGuard |

