/**
 * The storefront product grid (`home/components/ProductsSection.tsx`): the
 * category filter, the loading branch, the card's image and price fallbacks
 * and the category button labels.
 */
module ProductsSection {
  import opened Wrappers
  import opened Js
  import opened Types
  import opened Collections

  const AllCategories := "all"
  const PlaceholderImage := "https://via.placeholder.com/400"

  function InCategory(selected: string): StoreProduct -> bool {
    (p: StoreProduct) => p.category == Some(selected)
  }

  /** `filteredProducts`: `'all'` shows everything, any other selection the products of that category. */
  function FilteredProducts(ps: seq<StoreProduct>, selected: string): (r: seq<StoreProduct>)
    ensures selected == AllCategories ==> r == ps
    ensures selected != AllCategories ==> r == Filter(ps, InCategory(selected))
    ensures |r| <= |ps|
  {
    if selected == AllCategories then ps else Filter(ps, InCategory(selected))
  }

  /**
   * A selection other than `'all'` keeps exactly the products of that
   * category, in their order (the filter distributes over concatenation).
   */
  lemma FilteredProductsExactly(ps: seq<StoreProduct>, rest: seq<StoreProduct>, selected: string, p: StoreProduct)
    requires selected != AllCategories
    ensures p in FilteredProducts(ps, selected) <==> p in ps && p.category == Some(selected)
    ensures FilteredProducts(ps + rest, selected) == FilteredProducts(ps, selected) + FilteredProducts(rest, selected)
  {
    FilterMembership(ps, InCategory(selected), p);
    FilterAppend(ps, rest, InCategory(selected));
  }

  /** Filtering again by the same selection changes nothing. */
  lemma FilterTwiceIsOnce(ps: seq<StoreProduct>, selected: string)
    ensures FilteredProducts(FilteredProducts(ps, selected), selected) == FilteredProducts(ps, selected)
  {
    if selected != AllCategories {
      FilterIdempotent(ps, InCategory(selected));
    }
  }

  /** `product.sold_price || product.price`: a missing or zero sale price shows the regular price. */
  function DisplayPrice(p: StoreProduct): (r: real)
    ensures p.soldPrice.None? || p.soldPrice.value == 0.0 ==> r == p.price
    ensures p.soldPrice.Some? && p.soldPrice.value != 0.0 ==> r == p.soldPrice.value
  {
    match p.soldPrice
    case Some(s) => if s != 0.0 then s else p.price
    case None => p.price
  }

  /** The card's `src`: the first of a non-empty `images`, otherwise the placeholder URL. */
  function CardImage(images: JsValue): (r: JsValue)
    ensures images.Arr? && |images.items| > 0 ==> r == images.items[0]
    ensures Length(images).None? || Length(images).value == 0 ==> r == Str(PlaceholderImage)
  {
    if Truthy(images) && Length(images).Some? && Length(images).value > 0 then First(images)
    else Str(PlaceholderImage)
  }

  function UpperChar(c: char): char {
    if 'a' <= c <= 'z' then (c as int - 32) as char else c
  }

  /** A category button's text: `category.charAt(0).toUpperCase() + category.slice(1)`. */
  function CategoryLabel(category: string): (r: string)
    ensures |r| == |category|
    ensures |category| > 0 ==> r[0] == UpperChar(category[0]) && r[1..] == category[1..]
  {
    if category == [] then [] else [UpperChar(category[0])] + category[1..]
  }

  /** The "all" button reads "All". */
  lemma AllLabel(category: string)
    requires category == AllCategories
    ensures CategoryLabel(category) == "All"
  {
    assert CategoryLabel(category) == ['A'] + "ll";
  }

  /** One product card. */
  datatype Card = Card(name: string, image: JsValue, price: real)

  function CardOf(p: StoreProduct): Card {
    Card(p.name, CardImage(p.images), DisplayPrice(p))
  }

  /** What the section shows. */
  datatype SectionView = LoadingMessage | Grid(cards: seq<Card>)

  /** While loading only the message is shown; afterwards one card per filtered product, in order. */
  function Render(ps: seq<StoreProduct>, selected: string, loading: bool): (r: SectionView)
    ensures r.LoadingMessage? <==> loading
    ensures r.Grid? ==> |r.cards| == |FilteredProducts(ps, selected)|
    ensures r.Grid? ==> forall i :: 0 <= i < |r.cards| ==> r.cards[i] == CardOf(FilteredProducts(ps, selected)[i])
  {
    if loading then LoadingMessage
    else
      var shown := FilteredProducts(ps, selected);
      Grid(seq(|shown|, i requires 0 <= i < |shown| => CardOf(shown[i])))
  }
}
