/** The data side of src/app/wishlist/page.tsx: `normalizeProduct`, and the effect that
    loads the saved products once the wishlist ids are known. Rendering is not modelled. */
module WishlistPage {
  import opened Common

  datatype Category = Category(name: string)

  /** The shapes the joined `categories(name)` can come back in. */
  datatype Categories =
    | Missing                     // undefined
    | Null                        // null
    | One(category: Category)     // a single object
    | Many(all: seq<Category>)    // an array

  /** A product as the query returns it; prices in cents. */
  datatype ProductRecord = ProductRecord(
    id: ProductId, name: string, slug: string, price: int,
    images: Option<seq<string>>, categories: Categories)

  /** `ProductRow`: a product with at most one category. */
  datatype ProductRow = ProductRow(
    id: ProductId, name: string, slug: string, price: int,
    images: Option<seq<string>>, category: Option<Category>)

  /** What the page holds once its effect has run. */
  datatype PageState = PageState(products: seq<ProductRow>, loading: bool, queried: bool)

  /** `normalizeProduct`: the first category of an array (none for an empty one), a single
      category as it is, none for null or undefined; every other field copied. */
  function NormalizeProduct(row: ProductRecord): (r: ProductRow)
    ensures r.id == row.id && r.name == row.name && r.slug == row.slug
    ensures r.price == row.price && r.images == row.images
    ensures row.categories.Many? && |row.categories.all| > 0 ==> r.category == Some(row.categories.all[0])
    ensures row.categories.Many? && |row.categories.all| == 0 ==> r.category == None
    ensures row.categories.One? ==> r.category == Some(row.categories.category)
    ensures row.categories.Missing? || row.categories.Null? ==> r.category == None
  {
    var category :=
      match row.categories
      case Many(all) => if |all| > 0 then Some(all[0]) else None
      case One(c) => Some(c)
      case _ => None;
    ProductRow(row.id, row.name, row.slug, row.price, row.images, category)
  }

  /** Every fetched product normalised, in the order the query returned them. */
  function NormalizeAll(rows: seq<ProductRecord>): (r: seq<ProductRow>)
    ensures |r| == |rows|
    ensures forall k :: 0 <= k < |rows| ==> r[k] == NormalizeProduct(rows[k])
  {
    if rows == [] then [] else [NormalizeProduct(rows[0])] + NormalizeAll(rows[1..])
  }

  /** The page's effect run to completion. With no user or no saved id it empties the
      list and stops loading without any query; otherwise it queries, keeps the
      normalised rows when the data is an array (`None`: it is not) and stops loading. */
  function LoadSavedProducts(hasUser: bool, ids: set<ProductId>, data: Option<seq<ProductRecord>>): (s: PageState)
    ensures !hasUser || ids == {} ==> s == PageState([], false, false)
    ensures hasUser && ids != {} ==> s.queried && !s.loading
    ensures hasUser && ids != {} && data.None? ==> s.products == []
    ensures hasUser && ids != {} && data.Some? ==>
      |s.products| == |data.value| &&
      forall k :: 0 <= k < |data.value| ==> s.products[k] == NormalizeProduct(data.value[k])
  {
    if !hasUser || |ids| == 0 then PageState([], false, false)
    else PageState(if data.Some? then NormalizeAll(data.value) else [], false, true)
  }
}
