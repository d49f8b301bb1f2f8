/**
 * The product catalog: the search-and-category filter that decides which
 * products are shown, removal of a product by id, and the product built from
 * the catalog-entry form.
 */
module Catalog {
  import opened Domain
  import opened Text
  import opened Seqs

  /** Case-insensitive: the lower-cased name includes the lower-cased query. */
  predicate MatchesSearch(p: Product, query: string) {
    Contains(Lower(p.name), Lower(query))
  }

  predicate MatchesCategory(p: Product, category: string) {
    category == AllCategories || p.category == category
  }

  predicate Matches(p: Product, query: string, category: string) {
    MatchesSearch(p, query) && MatchesCategory(p, category)
  }

  /** The products shown for a search text and a selected category, in catalog order. */
  function Filter(products: seq<Product>, query: string, category: string): (r: seq<Product>)
    ensures |r| <= |products|
    ensures forall p :: p in r <==> p in products && Matches(p, query, category)
  {
    var keep := (p: Product) => Matches(p, query, category);
    SelectMembers(products, keep);
    Select(products, keep)
  }

  /** The filter only drops products: what it keeps stays in catalog order. */
  lemma FilterIsSubsequence(products: seq<Product>, query: string, category: string)
    ensures IsSubsequence(Filter(products, query, category), products)
  {
    SelectIsSubsequence(products, p => Matches(p, query, category));
  }

  /** Filtering a catalog is filtering its two halves and putting the results side by side. */
  lemma FilterAppend(a: seq<Product>, b: seq<Product>, query: string, category: string)
    ensures Filter(a + b, query, category) == Filter(a, query, category) + Filter(b, query, category)
  {
    SelectAppend(a, b, p => Matches(p, query, category));
  }

  /** An empty search with every category selected shows the whole catalog, unchanged. */
  lemma FilterShowsAll(products: seq<Product>)
    ensures Filter(products, "", AllCategories) == products
  {
    assert Lower("") == "";
    forall i | 0 <= i < |products|
      ensures Matches(products[i], "", AllCategories)
    {
      ContainsEmpty(Lower(products[i].name));
    }
    SelectKeepsAll(products, p => Matches(p, "", AllCategories));
  }

  /** A search nothing matches shows nothing. */
  lemma FilterNoMatch(products: seq<Product>, query: string, category: string)
    requires forall i :: 0 <= i < |products| ==> !Matches(products[i], query, category)
    ensures Filter(products, query, category) == []
  {
    SelectDropsAll(products, p => Matches(p, query, category));
  }

  /** The delete button of a catalog entry: keep the products whose id differs. */
  function RemoveProduct(products: seq<Product>, id: Id): seq<Product> {
    Select(products, (p: Product) => p.id != id)
  }

  /**
   * Deleting keeps exactly the products with another id, each as many times
   * as it occurs, in order; an absent id changes nothing.
   */
  lemma RemoveProductSpec(products: seq<Product>, id: Id)
    ensures IsSubsequence(RemoveProduct(products, id), products)
    ensures forall p :: p in RemoveProduct(products, id) <==> p in products && p.id != id
    ensures forall p :: multiset(RemoveProduct(products, id))[p] == if p.id != id then multiset(products)[p] else 0
    ensures (forall i :: 0 <= i < |products| ==> products[i].id != id) ==> RemoveProduct(products, id) == products
  {
    SelectIsSubsequence(products, (p: Product) => p.id != id);
    SelectMembers(products, (p: Product) => p.id != id);
    SelectCount(products, (p: Product) => p.id != id);
    if forall i :: 0 <= i < |products| ==> products[i].id != id {
      SelectKeepsAll(products, (p: Product) => p.id != id);
    }
  }

  /** The form may be saved only when both the name and the price text are filled in. */
  predicate FormComplete(form: ProductForm) {
    form.name != "" && form.price != ""
  }

  /** A numeric input's text is either empty or a numeral. */
  predicate PriceTextOk(text: string) {
    text == "" || IsNumeral(text)
  }

  /** The product saved from a completed form, under a caller-supplied id. */
  function NewProduct(form: ProductForm, id: Id): Product
    requires IsNumeral(form.price)
  {
    Product(id, form.name, form.category, ParseInt(form.price), form.unit,
            if form.image == "" then DefaultImage else form.image, true, None)
  }

  /**
   * The saved product carries the form's name, unit and category, the number
   * the price text reads as (leading zeros included), is in stock, and shows
   * the default image when the image link was left empty.
   */
  lemma NewProductFromForm(form: ProductForm, id: Id)
    requires IsNumeral(form.price)
    ensures NewProduct(form, id).id == id
    ensures NewProduct(form, id).price == ParseInt(form.price)
    ensures NewProduct(form, id).name == form.name && NewProduct(form, id).unit == form.unit
    ensures NewProduct(form, id).category == form.category
    ensures NewProduct(form, id).inStock
    ensures NewProduct(form, id).image == (if form.image == "" then DefaultImage else form.image)
  {
  }

  /** A price typed as the decimal rendering of an integer is saved as that integer. */
  lemma NewProductPrice(form: ProductForm, id: Id, price: int)
    requires form.price == IntToString(price)
    ensures IsNumeral(form.price)
    ensures NewProduct(form, id).price == price
  {
    IntToStringRoundTrip(price);
  }

  /** Saving a product under a fresh id and then deleting that id restores the catalog. */
  lemma AddThenRemove(products: seq<Product>, form: ProductForm, id: Id)
    requires IsNumeral(form.price)
    requires forall i :: 0 <= i < |products| ==> products[i].id != id
    ensures RemoveProduct([NewProduct(form, id)] + products, id) == products
  {
    SelectAppend([NewProduct(form, id)], products, (p: Product) => p.id != id);
    SelectKeepsAll(products, (p: Product) => p.id != id);
  }
}
