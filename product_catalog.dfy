/**
 * The product grid of the React client (src/components/pos/ProductCatalog.tsx):
 * the barcode box that adds a product by exact barcode, and the category and
 * search filters that decide which products are shown.
 */
module ProductCatalog {
  import opened StringUtil
  import opened Seqs
  import opened Wrappers
  import opened ClientTypes

  /** The position of the first product with exactly the barcode `code`, or `|products|` when there is none. */
  function FirstWithBarcode(products: seq<Product>, code: string): (k: nat)
    ensures k <= |products|
    ensures k < |products| ==> products[k].barcode == code
    ensures forall j :: 0 <= j < k ==> products[j].barcode != code
  {
    if products == [] then 0
    else if products[0].barcode == code then 0
    else 1 + FirstWithBarcode(products[1..], code)
  }

  /** `products.find(p => p.barcode === code)`: the first product with exactly that barcode. */
  function FindByBarcode(products: seq<Product>, code: string): (r: Option<Product>)
    ensures r.None? <==> forall j :: 0 <= j < |products| ==> products[j].barcode != code
    ensures r.Some? ==> r.value.barcode == code && r.value == products[FirstWithBarcode(products, code)]
  {
    var k := FirstWithBarcode(products, code);
    if k < |products| then Some(products[k]) else None
  }

  /** What the barcode box does: the product handed to `onAddToCart`, if any, and the box's text afterwards. */
  datatype BarcodeSearch = BarcodeSearch(added: Option<Product>, barcodeInput: string)

  /**
   * `handleBarcodeSearch`: an empty box does nothing; a barcode that some
   * product has adds the first such product and clears the box; any other
   * text adds nothing and stays in the box.
   */
  function HandleBarcodeSearch(products: seq<Product>, input: string): (r: BarcodeSearch)
    ensures input == "" ==> r == BarcodeSearch(None, input)
    ensures r.added.Some? ==> r.barcodeInput == "" && r.added == FindByBarcode(products, input)
                               && r.added.value.barcode == input
    ensures r.added.None? ==> r.barcodeInput == input
    ensures input != "" && (exists k :: 0 <= k < |products| && products[k].barcode == input) ==> r.added.Some?
  {
    if input == "" then BarcodeSearch(None, input)
    else
      var found := FindByBarcode(products, input);
      if found.Some? then BarcodeSearch(found, "") else BarcodeSearch(None, input)
  }

  /** The search box test: an empty query accepts everything; otherwise a case-insensitive name match or a barcode match. */
  predicate MatchesSearch(p: Product, query: string) {
    query == [] || Contains(Lower(p.name), Lower(query)) || Contains(p.barcode, query)
  }

  /** `filteredProducts`: first by category, then by the search query. */
  function FilteredProducts(products: seq<Product>, category: string, query: string): (r: seq<Product>)
    ensures forall i :: 0 <= i < |r| ==> r[i].category == category
    ensures forall p :: p in r <==> p in products && p.category == category && MatchesSearch(p, query)
    ensures SubsequenceOf(r, products)
  {
    var inCategory := (p: Product) => p.category == category;
    var matching := (p: Product) => MatchesSearch(p, query);
    FilterTwice(products, inCategory, matching, (p: Product) => inCategory(p) && matching(p));
    FilterIsSubsequence(products, (p: Product) => inCategory(p) && matching(p));
    Filter(Filter(products, inCategory), matching)
  }

  /** With an empty search box every product of the selected category is shown, in catalog order. */
  lemma EmptySearchShowsWholeCategory(products: seq<Product>, category: string)
    ensures FilteredProducts(products, category, "") == Filter(products, (p: Product) => p.category == category)
  {
    var inCategory := (p: Product) => p.category == category;
    FilterKeepsAll(Filter(products, inCategory), (p: Product) => MatchesSearch(p, ""));
  }
}
