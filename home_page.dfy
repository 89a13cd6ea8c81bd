/**
 * The storefront landing page (`home/page.tsx`): its state, the `fetchData`
 * sequence with its two queries and its throws, the product normalisation,
 * the category button list, the error screen and the carousel index.
 */
module HomePage {
  import opened Wrappers
  import opened Js
  import opened Types
  import opened Backend
  import HeroSection
  import ProductsSection

  const HeroSlideCount := 3
  const AllCategories := ProductsSection.AllCategories
  const Uncategorized := "uncategorized"
  const FetchFailed := "Failed to fetch data"
  /** The `TypeError` message of `.map` on a `null` result. */
  const NullDataMessage := "Cannot read properties of null (reading 'map')"

  /** The fallback `images`: a one-element list holding a `{url}` object. */
  function FallbackImages(): JsValue {
    Arr([Obj(map["url" := Str(ProductsSection.PlaceholderImage)])])
  }

  /** The mapping at lines 79-84: falsy `images` and `category` get their fallbacks; nothing else changes. */
  function MapProduct(p: StoreProduct): (r: StoreProduct)
    ensures r.id == p.id && r.name == p.name && r.price == p.price && r.soldPrice == p.soldPrice
    ensures Truthy(p.images) ==> r.images == p.images
    ensures !Truthy(p.images) ==> r.images == FallbackImages()
    ensures p.category.Some? && p.category.value != "" ==> r.category == p.category
    ensures p.category.None? || p.category.value == "" ==> r.category == Some(Uncategorized)
  {
    var category := if p.category.Some? && p.category.value != "" then p.category.value else Uncategorized;
    p.(images := Or(p.images, FallbackImages()), category := Some(category))
  }

  function MapProducts(ps: seq<StoreProduct>): (r: seq<StoreProduct>)
    ensures |r| == |ps|
    ensures forall i :: 0 <= i < |ps| ==> r[i] == MapProduct(ps[i])
  {
    seq(|ps|, i requires 0 <= i < |ps| => MapProduct(ps[i]))
  }

  /** After mapping, every product has truthy images and a non-empty category. */
  lemma MappedProductsAreComplete(ps: seq<StoreProduct>, i: int)
    requires 0 <= i < |ps|
    ensures Truthy(MapProducts(ps)[i].images)
    ensures MapProducts(ps)[i].category.Some? && MapProducts(ps)[i].category.value != ""
  {
  }

  /**
   * The fallback `images` is a list of `{url}` objects while the grid uses
   * `images[0]` itself as the `src`: a product without images gets the
   * object, not the placeholder URL.
   */
  lemma FallbackCardGetsObject(p: StoreProduct)
    requires !Truthy(p.images)
    ensures ProductsSection.CardImage(MapProduct(p).images) == Obj(map["url" := Str(ProductsSection.PlaceholderImage)])
  {
  }

  /** `['all', ...categoriesData.map(cat => cat.name)]`. */
  function CategoryList(names: seq<string>): (r: seq<string>)
    ensures |r| == |names| + 1 && r[0] == AllCategories && r[1..] == names
  {
    [AllCategories] + names
  }

  /** The message a query's failure ends with in the catch: its text, or the fallback when empty. */
  function FailureMessage<T>(r: QueryResponse<T>): (m: Option<string>)
    ensures m.None? <==> r.QueryResult? && r.error.None?
    ensures m.Some? ==> m.value != ""
    ensures r.QueryResult? && r.error.Some? && r.error.value.message != "" ==> m == Some(r.error.value.message)
    ensures r.QueryResult? && r.error.Some? && r.error.value.message == "" ==> m == Some(FetchFailed)
    ensures r.QueryThrew? && r.message != "" ==> m == Some(r.message)
    ensures r.QueryThrew? && r.message == "" ==> m == Some(FetchFailed)
  {
    match r
    case QueryResult(_, None) => None
    case QueryResult(_, Some(e)) => Some(if e.message != "" then e.message else FetchFailed)
    case QueryThrew(msg) => Some(if msg != "" then msg else FetchFailed)
  }

  /** `fetchData` runs to its end: neither query failed and both returned data. */
  predicate FetchSucceeded<P, C>(productsResponse: QueryResponse<P>, categoriesResponse: QueryResponse<C>) {
    && FailureMessage(productsResponse).None? && FailureMessage(categoriesResponse).None?
    && productsResponse.data.Some? && categoriesResponse.data.Some?
  }

  /**
   * The message the catch of `fetchData` stores when it does not run to its
   * end: the products failure, else the categories failure, else the
   * `TypeError` of mapping over a `null` result.
   */
  function FetchError<P, C>(productsResponse: QueryResponse<P>, categoriesResponse: QueryResponse<C>): (e: Option<string>)
    requires !FetchSucceeded(productsResponse, categoriesResponse)
    ensures e.Some? && e.value != ""
    ensures FailureMessage(productsResponse).Some? ==> e == FailureMessage(productsResponse)
    ensures FailureMessage(productsResponse).None? && FailureMessage(categoriesResponse).Some? ==>
      e == FailureMessage(categoriesResponse)
    ensures FailureMessage(productsResponse).None? && FailureMessage(categoriesResponse).None? ==>
      e == Some(NullDataMessage)
  {
    if FailureMessage(productsResponse).Some? then FailureMessage(productsResponse)
    else if FailureMessage(categoriesResponse).Some? then FailureMessage(categoriesResponse)
    else Some(NullDataMessage)
  }

  /** The page's screen: an error replaces everything else. */
  datatype Screen = ErrorScreen(message: string) | Landing(currentSlide: int, section: ProductsSection.SectionView)

  /** The landing page's state. */
  class StoreLanding {
    var currentSlide: int
    var selectedCategory: string
    var products: seq<StoreProduct>
    var categories: seq<string>
    var loading: bool
    var error: Option<string>

    /** The slide index stays on a slide and the button list starts with "all". */
    ghost predicate Valid()
      reads this
    {
      0 <= currentSlide < HeroSlideCount && |categories| > 0 && categories[0] == AllCategories
    }

    constructor ()
      ensures Valid()
      ensures currentSlide == 0 && selectedCategory == AllCategories && products == []
      ensures categories == [AllCategories] && loading && error == None
    {
      currentSlide := 0;
      selectedCategory := AllCategories;
      products := [];
      categories := [AllCategories];
      loading := true;
      error := None;
    }

    /**
     * `fetchData`. A failing products query throws before the categories
     * query is made; a failing categories query throws before anything is
     * set; a `null` products result throws at its `.map`, and a `null`
     * categories result throws after the products were already set. Loading
     * ends on every path, and the error is only ever set, never cleared.
     */
    method FetchData(productsResponse: QueryResponse<seq<StoreProduct>>, categoriesResponse: QueryResponse<seq<string>>)
      returns (categoriesRequested: bool)
      requires Valid()
      modifies this`products, this`categories, this`loading, this`error
      ensures Valid() && !loading
      ensures categoriesRequested <==> FailureMessage(productsResponse).None?
      ensures FailureMessage(productsResponse).Some? ==>
        products == old(products) && categories == old(categories) && error == FailureMessage(productsResponse)
      ensures categoriesRequested && FailureMessage(categoriesResponse).Some? ==>
        products == old(products) && categories == old(categories) && error == FailureMessage(categoriesResponse)
      ensures categoriesRequested && FailureMessage(categoriesResponse).None? ==>
        (productsResponse.data.None? ==>
          products == old(products) && categories == old(categories) && error == Some(NullDataMessage))
        && (productsResponse.data.Some? && categoriesResponse.data.None? ==>
          products == MapProducts(productsResponse.data.value) && categories == old(categories)
          && error == Some(NullDataMessage))
        && (productsResponse.data.Some? && categoriesResponse.data.Some? ==>
          products == MapProducts(productsResponse.data.value)
          && categories == CategoryList(categoriesResponse.data.value) && error == old(error))
      ensures FetchSucceeded(productsResponse, categoriesResponse) ==> error == old(error)
      ensures !FetchSucceeded(productsResponse, categoriesResponse) ==>
        error == FetchError(productsResponse, categoriesResponse)
        && Render(error, currentSlide, products, selectedCategory, loading).ErrorScreen?
    {
      loading := true;
      categoriesRequested := false;
      var failure := FailureMessage(productsResponse);
      if failure.Some? {
        error := failure;
      } else {
        categoriesRequested := true;
        failure := FailureMessage(categoriesResponse);
        if failure.Some? {
          error := failure;
        } else if productsResponse.data.None? {
          error := Some(NullDataMessage);
        } else {
          products := MapProducts(productsResponse.data.value);
          if categoriesResponse.data.None? {
            error := Some(NullDataMessage);
          } else {
            categories := CategoryList(categoriesResponse.data.value);
          }
        }
      }
      // finally
      loading := false;
    }

    /** A category button sets the selection. */
    method SelectCategory(category: string)
      modifies this`selectedCategory
      ensures selectedCategory == category
    {
      selectedCategory := category;
    }

    /** The carousel's "next" button (and the timer tick). */
    method NextSlide()
      requires Valid()
      modifies this`currentSlide
      ensures Valid() && currentSlide == HeroSection.NextSlide(old(currentSlide), HeroSlideCount)
    {
      currentSlide := HeroSection.NextSlide(currentSlide, HeroSlideCount);
    }

    /** The carousel's "previous" button. */
    method PrevSlide()
      requires Valid()
      modifies this`currentSlide
      ensures Valid() && currentSlide == HeroSection.PrevSlide(old(currentSlide), HeroSlideCount)
    {
      currentSlide := HeroSection.PrevSlide(currentSlide, HeroSlideCount);
    }

    /** A carousel dot: there is one per slide. */
    method SelectSlide(index: int)
      requires Valid() && 0 <= index < HeroSlideCount
      modifies this`currentSlide
      ensures Valid() && currentSlide == index
    {
      currentSlide := index;
    }

    function View(): Screen
      reads this
    {
      Render(error, currentSlide, products, selectedCategory, loading)
    }
  }

  /** `if (error)`: a non-empty error shows only the error screen; otherwise the carousel and the grid. */
  function Render(error: Option<string>, currentSlide: int, products: seq<StoreProduct>, selected: string, loading: bool): (r: Screen)
    ensures r.ErrorScreen? <==> error.Some? && error.value != ""
    ensures r.ErrorScreen? ==> r.message == error.value
    ensures r.Landing? ==> r.section == ProductsSection.Render(products, selected, loading)
  {
    if error.Some? && error.value != "" then ErrorScreen(error.value)
    else Landing(currentSlide, ProductsSection.Render(products, selected, loading))
  }

  /**
   * Whichever way `fetchData` fails (a query error or exception on either
   * query, or a `null` result), the page shows the error screen with that
   * message, whatever was fetched before.
   */
  lemma FailedFetchShowsError<P, C>(productsResponse: QueryResponse<P>, categoriesResponse: QueryResponse<C>,
                                    currentSlide: int, products: seq<StoreProduct>, selected: string, loading: bool)
    requires !FetchSucceeded(productsResponse, categoriesResponse)
    ensures var e := FetchError(productsResponse, categoriesResponse);
      Render(e, currentSlide, products, selected, loading) == ErrorScreen(e.value)
  {
  }
}
