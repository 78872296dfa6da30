/**
 * The catalogue record of the UI (`Product`), the mapper from a backend
 * record of unknown shape (`mapDtoToProduct`) and the built-in catalogue
 * `PRODUCTOS_MOCK`, with the category filter the menu pages apply to it.
 */
module ProductModel {
  import opened Options
  import opened JsValues

  /** A catalogue entry. Prices are integer cents; `categoria` is one of
      'promocion', 'carta', 'acompanamiento', 'bebida' by its declared type,
      but the mapper does not enforce that, so it is a plain string here. */
  datatype Product = Product(
    id: int,
    nombre: string,
    descripcion: string,
    precio: int,
    precioAnterior: Option<int>,
    imagen: Option<string>,
    imageUrl: Option<string>,
    categoria: string,
    disponible: bool)

  /** `Number(...)` is a parameter of the mapper; all that the lemmas need of
      it is that it leaves a number as it is. */
  ghost predicate NumberFaithful(toNumber: JsValue -> int) {
    forall n :: toNumber(Num(n)) == n
  }

  /** The `as string | undefined` cast of an image field: a string is kept,
      anything else reads as absent. */
  function AsText(v: JsValue): Option<string> {
    if v.Str? then Some(v.s) else None
  }

  /** `mapDtoToProduct`. */
  function MapDtoToProduct(dto: JsValue, toNumber: JsValue -> int): Product {
    var d := if Truthy(dto) then dto else Obj(map[]);
    var id := toNumber(Coalesce(Get(d, "id"), Num(0)));
    var nombre := JsString(Coalesce(Coalesce(Get(d, "name"), Get(d, "nombre")), Str("")));
    var descripcion := JsString(Coalesce(Coalesce(Get(d, "description"), Get(d, "descripcion")), Str("")));
    var precio := toNumber(Coalesce(Coalesce(Get(d, "price"), Get(d, "precio")), Num(0)));
    var imagen := AsText(Coalesce(Coalesce(Get(d, "imagen"), Get(d, "image_url")), Get(d, "imageUrl")));
    var imageUrl := AsText(Coalesce(Coalesce(Get(d, "image_url"), Get(d, "imageUrl")), Get(d, "imagen")));
    var categoriaRaw :=
      Coalesce(Coalesce(Coalesce(Get(d, "category"), Get(d, "categoria")), Get(d, "categoria_name")), Str("carta"));
    var categoria :=
      if Truthy(categoriaRaw) && categoriaRaw.Obj?
      then JsString(Coalesce(Get(categoriaRaw, "name"), Str("carta")))
      else JsString(categoriaRaw);
    var disponible := Truthy(Coalesce(Coalesce(Get(d, "available"), Get(d, "disponible")), Bool(true)));
    var precioAnteriorRaw :=
      Coalesce(Coalesce(Get(d, "original_price"), Get(d, "precio_anterior")), Get(d, "precioAnterior"));
    var precioAnterior :=
      match precioAnteriorRaw
      case Num(n) => Some(n)
      case Str(_) => Some(toNumber(precioAnteriorRaw))
      case _ => None;
    Product(id, nombre, descripcion, precio, precioAnterior, imagen, imageUrl, categoria, disponible)
  }

  /** The product every field of which took its default. */
  const DefaultProduct := Product(0, "", "", 0, None, None, None, "carta", true)

  /** A null, undefined or primitive DTO carries no fields, and every field
      of the result takes its default. */
  lemma MapNonRecord(dto: JsValue, toNumber: JsValue -> int)
    requires NumberFaithful(toNumber)
    requires !dto.Obj? || dto.fields == map[]
    ensures MapDtoToProduct(dto, toNumber) == DefaultProduct
  {
    assert toNumber(Num(0)) == 0;
  }

  /** English keys win over Spanish ones, and '' / '' / 0 are the defaults. */
  lemma MapKeyPrecedence(d: JsValue, toNumber: JsValue -> int)
    requires NumberFaithful(toNumber)
    requires d.Obj?
    ensures var p := MapDtoToProduct(d, toNumber);
      && (Get(d, "name").Str? ==> p.nombre == Get(d, "name").s)
      && (IsNullish(Get(d, "name")) && Get(d, "nombre").Str? ==> p.nombre == Get(d, "nombre").s)
      && (IsNullish(Get(d, "name")) && IsNullish(Get(d, "nombre")) ==> p.nombre == "")
      && (Get(d, "description").Str? ==> p.descripcion == Get(d, "description").s)
      && (IsNullish(Get(d, "description")) && Get(d, "descripcion").Str? ==> p.descripcion == Get(d, "descripcion").s)
      && (IsNullish(Get(d, "description")) && IsNullish(Get(d, "descripcion")) ==> p.descripcion == "")
      && (Get(d, "price").Num? ==> p.precio == Get(d, "price").n)
      && (IsNullish(Get(d, "price")) && Get(d, "precio").Num? ==> p.precio == Get(d, "precio").n)
      && (IsNullish(Get(d, "price")) && IsNullish(Get(d, "precio")) ==> p.precio == 0)
  {
    assert toNumber(Num(0)) == 0;
    if Get(d, "price").Num? {
      assert toNumber(Get(d, "price")) == Get(d, "price").n;
    }
    if Get(d, "precio").Num? {
      assert toNumber(Get(d, "precio")) == Get(d, "precio").n;
    }
  }

  /** The two image fields search the same three keys in different orders:
      `imagen` tries imagen, image_url, imageUrl; `imageUrl` tries image_url,
      imageUrl, imagen. */
  lemma MapImageLookups(d: JsValue, toNumber: JsValue -> int, url: string)
    requires d.Obj?
    ensures var p := MapDtoToProduct(d, toNumber);
      && (Get(d, "imagen") == Str(url) ==> p.imagen == Some(url))
      && (IsNullish(Get(d, "imagen")) && Get(d, "image_url") == Str(url) ==> p.imagen == Some(url))
      && ((IsNullish(Get(d, "imagen")) && IsNullish(Get(d, "image_url")) && Get(d, "imageUrl") == Str(url))
            ==> p.imagen == Some(url))
      && (Get(d, "image_url") == Str(url) ==> p.imageUrl == Some(url))
      && (IsNullish(Get(d, "image_url")) && Get(d, "imageUrl") == Str(url) ==> p.imageUrl == Some(url))
      && ((IsNullish(Get(d, "image_url")) && IsNullish(Get(d, "imageUrl")) && Get(d, "imagen") == Str(url))
            ==> p.imageUrl == Some(url))
  {
  }

  /** The category: a string is taken as it is (even one outside the four
      tags), a record contributes its `name` or 'carta', and no key at all
      gives 'carta'. */
  lemma MapCategory(d: JsValue, toNumber: JsValue -> int, c: string, inner: map<string, JsValue>)
    requires d.Obj?
    ensures var p := MapDtoToProduct(d, toNumber);
      && (Get(d, "category") == Str(c) ==> p.categoria == c)
      && (IsNullish(Get(d, "category")) && Get(d, "categoria") == Str(c) ==> p.categoria == c)
      && ((IsNullish(Get(d, "category")) && IsNullish(Get(d, "categoria")) && Get(d, "categoria_name") == Str(c))
            ==> p.categoria == c)
      && ((IsNullish(Get(d, "category")) && IsNullish(Get(d, "categoria")) && IsNullish(Get(d, "categoria_name")))
            ==> p.categoria == "carta")
      && (Get(d, "category") == Obj(inner) && "name" in inner && inner["name"] == Str(c) ==> p.categoria == c)
      && (Get(d, "category") == Obj(inner) && "name" !in inner ==> p.categoria == "carta")
  {
  }

  /** `Boolean(available ?? disponible ?? true)`: the first key that is
      present decides by its truthiness, so 0 and '' make the product
      unavailable and the text 'false' leaves it available; only when both
      keys are missing does it default to available. */
  lemma MapAvailability(d: JsValue, toNumber: JsValue -> int)
    requires d.Obj?
    ensures var p := MapDtoToProduct(d, toNumber);
      && (!IsNullish(Get(d, "available")) ==> (p.disponible <==> Truthy(Get(d, "available"))))
      && (IsNullish(Get(d, "available")) && !IsNullish(Get(d, "disponible")) ==>
            (p.disponible <==> Truthy(Get(d, "disponible"))))
      && (IsNullish(Get(d, "available")) && IsNullish(Get(d, "disponible")) ==> p.disponible)
  {
  }

  /** The previous price is kept when it is a number, converted when it is a
      string, and absent for any other value. */
  lemma MapPreviousPrice(d: JsValue, toNumber: JsValue -> int)
    requires d.Obj?
    ensures var p := MapDtoToProduct(d, toNumber);
      var raw := Coalesce(Coalesce(Get(d, "original_price"), Get(d, "precio_anterior")), Get(d, "precioAnterior"));
      && (raw.Num? ==> p.precioAnterior == Some(raw.n))
      && (raw.Str? ==> p.precioAnterior == Some(toNumber(raw)))
      && (!raw.Num? && !raw.Str? ==> p.precioAnterior.None?)
  {
  }

  /** `products.filter(p => p.categoria === cat)`. */
  function FilterCategory(ps: seq<Product>, cat: string): (r: seq<Product>)
    ensures |r| <= |ps|
    decreases |ps|
  {
    if ps == [] then []
    else (if ps[0].categoria == cat then [ps[0]] else []) + FilterCategory(ps[1..], cat)
  }

  /** The filter keeps exactly the products of category `cat`: everything it
      returns comes from `ps` and has that category, and every such product
      of `ps` is returned. */
  lemma {:induction false} FilterCategoryMembers(ps: seq<Product>, cat: string)
    ensures forall p :: p in FilterCategory(ps, cat) ==> p in ps && p.categoria == cat
    ensures forall p :: p in ps && p.categoria == cat ==> p in FilterCategory(ps, cat)
    decreases |ps|
  {
    if ps != [] {
      FilterCategoryMembers(ps[1..], cat);
      assert ps == [ps[0]] + ps[1..];
    }
  }

  /** Filtering keeps the catalogue order: it distributes over concatenation. */
  lemma {:induction false} FilterCategoryAppend(a: seq<Product>, b: seq<Product>, cat: string)
    ensures FilterCategory(a + b, cat) == FilterCategory(a, cat) + FilterCategory(b, cat)
    decreases |a|
  {
    if a == [] {
      assert a + b == b;
    } else {
      assert (a + b)[0] == a[0];
      assert (a + b)[1..] == a[1..] + b;
      FilterCategoryAppend(a[1..], b, cat);
      var h := if a[0].categoria == cat then [a[0]] else [];
      assert FilterCategory(a + b, cat) == h + FilterCategory(a[1..] + b, cat);
      assert FilterCategory(a, cat) == h + FilterCategory(a[1..], cat);
    }
  }

  /** A block whose products all have category `cat` passes the filter whole. */
  lemma {:induction false} FilterCategoryAll(ps: seq<Product>, cat: string)
    requires forall i :: 0 <= i < |ps| ==> ps[i].categoria == cat
    ensures FilterCategory(ps, cat) == ps
    decreases |ps|
  {
    if ps != [] {
      FilterCategoryAll(ps[1..], cat);
    }
  }

  /** A block with no product of category `cat` is filtered away. */
  lemma {:induction false} FilterCategoryNone(ps: seq<Product>, cat: string)
    requires forall i :: 0 <= i < |ps| ==> ps[i].categoria != cat
    ensures FilterCategory(ps, cat) == []
    decreases |ps|
  {
    if ps != [] {
      FilterCategoryNone(ps[1..], cat);
    }
  }

  predicate IdsIncreasing(ps: seq<Product>) {
    forall i :: 0 <= i < |ps| - 1 ==> ps[i].id < ps[i + 1].id
  }

  predicate IdsDistinct(ps: seq<Product>) {
    forall i, j :: 0 <= i < j < |ps| ==> ps[i].id != ps[j].id
  }

  /** Ids that increase from one product to the next are pairwise distinct. */
  lemma {:induction false} IncreasingIdsDistinct(ps: seq<Product>)
    requires IdsIncreasing(ps)
    ensures forall i, j :: 0 <= i < j < |ps| ==> ps[i].id < ps[j].id
    decreases |ps|
  {
    if |ps| > 1 {
      IncreasingIdsDistinct(ps[1..]);
      forall i, j | 0 <= i < j < |ps| ensures ps[i].id < ps[j].id {
        if i > 0 {
          assert ps[i].id == ps[1..][i - 1].id && ps[j].id == ps[1..][j - 1].id;
        } else if j > 1 {
          assert ps[1].id == ps[1..][0].id && ps[j].id == ps[1..][j - 1].id;
        }
      }
    }
  }

  /** `PRODUCTOS_MOCK`: six promotions, six dishes of the menu, six side
      dishes and six drinks, in that order. */
  const PRODUCTOS_MOCK: seq<Product> := [
    Product(1, "Brasa Personal", "1/4 pollo, papas fritas, gaseosa 500ml y salsas.", 1590, Some(3190),
            Some("https://www.donbelisario.com.pe/media/catalog/product/p/d/pdp_brasa-days_personal_1000x1000px_1__1.png"), None, "promocion", true),
    Product(2, "Combo Familiar", "Pollo entero, papas familiares, ensalada y gaseosa 1.5L.", 4990, Some(6590),
            Some("https://www.donbelisario.com.pe/media/catalog/product/s/e/semana-dorada-promo-familiar.png?optimize=medium&bg-color=255,255,255&fit=bounds&height=700&width=700&canvas=700:700&format=jpeg"), None, "promocion", true),
    Product(3, "Promo Pareja", "1/2 pollo, papas medianas, 2 gaseosas 500ml.", 2990, Some(4290),
            Some("https://www.donbelisario.com.pe/media/catalog/product/c/a/card-duopatrio-1000x1000_1.png?optimize=medium&bg-color=255,255,255&fit=bounds&height=300&width=300&canvas=300:300&format=jpeg"), None, "promocion", true),
    Product(4, "Super Combo", "1/2 pollo, papas grandes, ensalada, 4 cremas y gaseosa 1L.", 3590, Some(4890),
            Some("https://www.donbelisario.com.pe/media/catalog/product/c/a/card-armatumedio-1000x1000.png?optimize=medium&bg-color=255,255,255&fit=bounds&height=700&width=700&canvas=700:700&format=jpeg"), None, "promocion", true),
    Product(5, "Mega Familiar", "Pollo entero, papas jumbo, ensalada grande, 8 cremas y gaseosa 2L.", 6990, Some(8990),
            Some("https://encrypted-tbn0.gstatic.com/images?q=tbn:ANd9GcQQEbEu74AgIgYOIsLCNorxX1P3DqKaaAf1tw&s"), None, "promocion", true),
    Product(6, "Promo Express", "1/4 pollo con papas pequeñas y gaseosa.", 1990, Some(2890),
            Some("https://encrypted-tbn0.gstatic.com/images?q=tbn:ANd9GcTfGCgyIYg0hBdcFsoDwlALFoaJmYatLaH1ZfQ1NwEIexLjUdFSTW44gwfzAe1MhMVc2u0&usqp=CAU"), None, "promocion", true),
    Product(11, "1/4 de Pollo", "Cuarto de pollo a la brasa con papas y cremas.", 1890, None,
            Some("https://www.donbelisario.com.pe/media/catalog/product/p/d/pdp_un-cuarto_papas_ensalada_1000x1000px.png?optimize=medium&bg-color=255,255,255&fit=bounds&height=700&width=700&canvas=700:700&format=jpeg"), None, "carta", true),
    Product(12, "1/2 Pollo", "Medio pollo a la brasa con papas y ensalada.", 3290, None,
            Some("https://www.donbelisario.com.pe/media/catalog/product/p/d/pdp_medio_papas_ensalada_1000x1000px.png?optimize=medium&bg-color=255,255,255&fit=bounds&height=700&width=700&canvas=700:700&format=jpeg"), None, "carta", true),
    Product(13, "Pollo Entero", "Pollo entero a la brasa con papas grandes y ensalada.", 5890, None,
            Some("https://encrypted-tbn0.gstatic.com/images?q=tbn:ANd9GcRh-ZJLt0lzXGiORU3jEcQ-ZVCGTk7wiUEJKg&s"), None, "carta", true),
    Product(14, "1/4 Pollo + Arroz", "Cuarto de pollo con arroz chaufa y cremas.", 2290, None,
            Some("https://encrypted-tbn0.gstatic.com/images?q=tbn:ANd9GcTX0erA8DO1Q2oE0KDLWjlEZAG6fjslIegU7w&s"), None, "carta", true),
    Product(15, "Pechuga a la Plancha", "Pechuga de pollo a la plancha con ensalada y papas.", 2490, None,
            Some("https://www.donbelisario.com.pe/media/wysiwyg/Pechuga-a-la-parrilla_categoria_desktop_384x320px.jpg"), None, "carta", true),
    Product(16, "Pierna con Encuentro", "Pierna con encuentro, papas y cremas.", 2090, None,
            Some("https://wongfood.vtexassets.com/arquivos/ids/537243-800-auto?v=637853285619400000&width=800&height=auto&aspect=true"), None, "carta", true),
    Product(21, "Papas Fritas Personal", "Porción personal de papas fritas doradas.", 690, None,
            Some("https://encrypted-tbn0.gstatic.com/images?q=tbn:ANd9GcTqnj22FJq4nKKofaGxUoG1zMC6m_kA1pZQ4g&s"), None, "acompanamiento", true),
    Product(22, "Papas Fritas Familiar", "Porción familiar de papas fritas.", 1290, None,
            Some("https://3a448acea9.cbaul-cdnwnd.com/3028317500cc029705bed36b22f47f88/200000026-961e0961e2/image-crop-200000025.jpeg?ph=3a448acea9"), None, "acompanamiento", true),
    Product(23, "Ensalada Fresca", "Ensalada de lechuga, tomate, cebolla y limón.", 790, None,
            Some("https://www.donbelisario.com.pe/media/catalog/product/2/1/2146462468.png?optimize=medium&bg-color=255,255,255&fit=bounds&height=700&width=700&canvas=700:700&format=jpeg"), None, "acompanamiento", true),
    Product(24, "Choclo con Queso", "Choclo desgranado con queso fresco peruano.", 850, None,
            Some("https://media-cdn.tripadvisor.com/media/photo-s/0d/eb/07/46/papitas-con-queso-buenisimas.jpg"), None, "acompanamiento", true),
    Product(25, "Arroz Chaufa", "Arroz chaufa estilo peruano.", 990, None,
            Some("https://www.laylita.com/recetas/wp-content/uploads/2022/12/Receta-del-arroz-chaufa-peruano.jpg"), None, "acompanamiento", true),
    Product(26, "Yucas Fritas", "Porción de yucas fritas crujientes.", 750, None,
            Some("https://encrypted-tbn0.gstatic.com/images?q=tbn:ANd9GcSRirUIwhLJENkznQP6W7UaR1ZWN8KfRwQsqQ&s"), None, "acompanamiento", true),
    Product(31, "Inca Kola 500ml", "Gaseosa Inca Kola personal.", 450, None,
            Some("https://www.donbelisario.com.pe/media/catalog/product/2/1/2146463135.png?optimize=medium&bg-color=255,255,255&fit=bounds&height=700&width=700&canvas=700:700&format=jpeg"), None, "bebida", true),
    Product(32, "Coca Cola 1.5L", "Gaseosa Coca Cola familiar.", 790, None,
            Some("https://encrypted-tbn0.gstatic.com/images?q=tbn:ANd9GcQR_ibdVmpUfO6Wdmi1inPag7wfeHQNI6EhKQ&s"), None, "bebida", true),
    Product(33, "Chicha Morada 1L", "Chicha morada natural preparada al día.", 850, None,
            Some("https://encrypted-tbn0.gstatic.com/images?q=tbn:ANd9GcQ3Aed0SQ-WDDrdJJfMwnFaj0MTkKsAJwiihA&s"), None, "bebida", true),
    Product(34, "Inca Kola 1.5L", "Gaseosa Inca Kola familiar.", 790, None,
            Some("https://encrypted-tbn0.gstatic.com/images?q=tbn:ANd9GcRwwnZXu9IZWSRnIRTCiTXcbPnRLiQz-heLvA&s"), None, "bebida", true),
    Product(35, "Agua Mineral", "Agua mineral sin gas 625ml.", 350, None,
            Some("https://media.falabella.com/tottusPE/10225059_1/w=1500,h=1500,fit=pad"), None, "bebida", true),
    Product(36, "Limonada Frozen", "Limonada frozen natural 500ml.", 990, None,
            Some("https://encrypted-tbn0.gstatic.com/images?q=tbn:ANd9GcSi0jkzpccVi4vvRWUQabc-kGL76oMCdSNjKA&s"), None, "bebida", true)
  ]

  /** Filtering four consecutive blocks filters each block in turn. */
  lemma FilterFourBlocks(a: seq<Product>, b: seq<Product>, c: seq<Product>, d: seq<Product>, cat: string)
    ensures FilterCategory(a + b + c + d, cat)
         == FilterCategory(a, cat) + FilterCategory(b, cat) + FilterCategory(c, cat) + FilterCategory(d, cat)
  {
    FilterCategoryAppend(a + b + c, d, cat);
    FilterCategoryAppend(a + b, c, cat);
    FilterCategoryAppend(a, b, cat);
  }

  predicate AllInCategory(ps: seq<Product>, cat: string) {
    forall i :: 0 <= i < |ps| ==> ps[i].categoria == cat
  }

  predicate NoneInCategory(ps: seq<Product>, cat: string) {
    forall i :: 0 <= i < |ps| ==> ps[i].categoria != cat
  }

  /** A block all of one category filters to itself under that category and
      to nothing under any other. */
  lemma BlockFilter(b: seq<Product>, own: string, cat: string)
    requires AllInCategory(b, own)
    ensures FilterCategory(b, cat) == if own == cat then b else []
  {
    if own == cat {
      FilterCategoryAll(b, cat);
    } else {
      FilterCategoryNone(b, cat);
    }
  }

  /** Four blocks, each of a single category, filter to the blocks whose
      category is the one asked for, in order. */
  lemma FilterCategoryBlocks(a: seq<Product>, b: seq<Product>, c: seq<Product>, d: seq<Product>,
                             ca: string, cb: string, cc: string, cd: string, cat: string)
    requires AllInCategory(a, ca) && AllInCategory(b, cb) && AllInCategory(c, cc) && AllInCategory(d, cd)
    ensures FilterCategory(a + b + c + d, cat)
         == (if ca == cat then a else []) + (if cb == cat then b else [])
          + (if cc == cat then c else []) + (if cd == cat then d else [])
  {
    FilterFourBlocks(a, b, c, d, cat);
    BlockFilter(a, ca, cat);
    BlockFilter(b, cb, cat);
    BlockFilter(c, cc, cat);
    BlockFilter(d, cd, cat);
  }

  /** The catalogue is four blocks of six: promotions, the menu, side dishes
      and drinks. */
  lemma CatalogueBlocks()
    ensures |PRODUCTOS_MOCK| == 24
    ensures PRODUCTOS_MOCK == PRODUCTOS_MOCK[0..6] + PRODUCTOS_MOCK[6..12] + PRODUCTOS_MOCK[12..18] + PRODUCTOS_MOCK[18..24]
    ensures AllInCategory(PRODUCTOS_MOCK[0..6], "promocion")
    ensures AllInCategory(PRODUCTOS_MOCK[6..12], "carta")
    ensures AllInCategory(PRODUCTOS_MOCK[12..18], "acompanamiento")
    ensures AllInCategory(PRODUCTOS_MOCK[18..24], "bebida")
  {
  }

  /** A list laid out like the catalogue (four blocks of six: promotions,
      menu, side dishes, drinks) filters to its side-dish block and to its
      drink block. */
  lemma FilterCatalogueLayout(m: seq<Product>)
    requires |m| == 24
    requires AllInCategory(m[0..6], "promocion") && AllInCategory(m[6..12], "carta")
    requires AllInCategory(m[12..18], "acompanamiento") && AllInCategory(m[18..24], "bebida")
    ensures FilterCategory(m, "acompanamiento") == m[12..18]
    ensures FilterCategory(m, "bebida") == m[18..24]
  {
    assert m == m[0..6] + m[6..12] + m[12..18] + m[18..24];
    FilterCategoryBlocks(m[0..6], m[6..12], m[12..18], m[18..24],
                         "promocion", "carta", "acompanamiento", "bebida", "acompanamiento");
    assert [] + [] + m[12..18] + [] == m[12..18];
    FilterCategoryBlocks(m[0..6], m[6..12], m[12..18], m[18..24],
                         "promocion", "carta", "acompanamiento", "bebida", "bebida");
    assert [] + [] + [] + m[18..24] == m[18..24];
  }

  /** Filtering the catalogue by 'acompanamiento' gives the six side dishes,
      and by 'bebida' the six drinks, each in catalogue order. */
  lemma CatalogueFilter()
    ensures FilterCategory(PRODUCTOS_MOCK, "acompanamiento") == PRODUCTOS_MOCK[12..18]
    ensures FilterCategory(PRODUCTOS_MOCK, "bebida") == PRODUCTOS_MOCK[18..24]
  {
    CatalogueBlocks();
    FilterCatalogueLayout(PRODUCTOS_MOCK);
  }

  /** The catalogue's ids: promotions 1 to 6, menu 11 to 16, side dishes 21
      to 26 and drinks 31 to 36. */
  lemma CatalogueIds()
    ensures |PRODUCTOS_MOCK| == 24
    ensures forall k :: 0 <= k < 6 ==> PRODUCTOS_MOCK[k].id == k + 1
    ensures forall k :: 6 <= k < 12 ==> PRODUCTOS_MOCK[k].id == k + 5
    ensures forall k :: 12 <= k < 18 ==> PRODUCTOS_MOCK[k].id == k + 9
    ensures forall k :: 18 <= k < 24 ==> PRODUCTOS_MOCK[k].id == k + 13
  {
  }

  /** Every catalogue product is available and no two share an id. */
  lemma CatalogueAvailableDistinct()
    ensures forall i :: 0 <= i < |PRODUCTOS_MOCK| ==> PRODUCTOS_MOCK[i].disponible
    ensures IdsDistinct(PRODUCTOS_MOCK)
  {
    assert IdsIncreasing(PRODUCTOS_MOCK);
    IncreasingIdsDistinct(PRODUCTOS_MOCK);
  }
}
