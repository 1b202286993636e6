/** The catalogue page's client-side filter (`filteredProducts`): a search
    box over name and description, a category selector and the active flag. */
module ProductCatalog {
  import opened Common
  import opened Store
  import Products

  /** `s.toLowerCase().includes(term.toLowerCase())` */
  predicate Mentions(s: string, term: string) {
    Contains(Lower(s), Lower(term))
  }

  /** The filter's test for one product. */
  predicate Shown(p: Product, searchTerm: string, selectedCategory: string) {
    var matchesSearch := Mentions(p.name, searchTerm) || Mentions(p.description, searchTerm);
    var matchesCategory := selectedCategory == "all" || p.category == selectedCategory;
    matchesSearch && matchesCategory && p.active
  }

  function ShownBy(searchTerm: string, selectedCategory: string): Product -> bool {
    (p: Product) => Shown(p, searchTerm, selectedCategory)
  }

  /** `products.filter(...)`: the products passing the test, in their order. */
  function FilteredProducts(products: seq<Product>, searchTerm: string, selectedCategory: string): (r: seq<Product>)
    ensures IsSubsequence(r, products)
    ensures forall p :: p in r <==>
      && p in products
      && (Mentions(p.name, searchTerm) || Mentions(p.description, searchTerm))
      && (selectedCategory == "all" || p.category == selectedCategory)
      && p.active
    ensures forall i :: 0 <= i < |r| ==> r[i].active
  {
    FilterIsSubsequence(products, ShownBy(searchTerm, selectedCategory));
    Filter(products, ShownBy(searchTerm, selectedCategory))
  }

  /** With an empty search box and "all" selected, the page shows exactly the
      active products, in order. */
  lemma {:induction false} InitialView(products: seq<Product>)
    ensures FilteredProducts(products, "", "all") == Filter(products, Products.IsActive)
  {
    if products != [] {
      var last := products[|products| - 1];
      InitialView(products[..|products| - 1]);
      ContainsEmpty(Lower(last.name));
    }
  }

  /** An empty search term matches every product. */
  lemma EmptyTermMatchesAll(p: Product, selectedCategory: string)
    ensures Shown(p, "", selectedCategory) <==>
      (selectedCategory == "all" || p.category == selectedCategory) && p.active
  {
    ContainsEmpty(Lower(p.name));
  }

  /** "all" admits every category. */
  lemma AllAdmitsEveryCategory(p: Product, searchTerm: string)
    ensures Shown(p, searchTerm, "all") <==>
      (Mentions(p.name, searchTerm) || Mentions(p.description, searchTerm)) && p.active
  {
  }

  /** Every product the server's name search returns for a plain term is also
      shown by the page for that term (the page searches descriptions too, so
      it may show more). */
  lemma ServerResultsShown(products: seq<Product>, term: string, p: Product)
    requires Products.NoWildcards(term) && term != ""
    requires p in Products.GetProducts(products, None, Some(term))
    ensures p in FilteredProducts(products, term, "all")
  {
    Products.SearchIsCaseInsensitiveContainment(p, None, term);
  }
}
