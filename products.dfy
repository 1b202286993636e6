/** The product router: the catalogue listing with its active, category and
    name-search filters, and the lookup of one product. Both only read. */
module Products {
  import opened Common
  import opened Store

  // ------------------------------------------------------------------
  // SQL LIKE
  // ------------------------------------------------------------------

  /** SQL `s LIKE p` without an escape character: `%` matches any run of
      characters, `_` any single character, everything else itself. A pattern
      without `%` matches only strings of its own length, and one without any
      wildcard matches only itself. */
  predicate Like(s: string, p: string)
    ensures '%' !in p && Like(s, p) ==> |s| == |p|
    ensures NoWildcards(p) ==> (Like(s, p) <==> s == p)
    decreases |s| + |p|
  {
    if p == [] then s == []
    else if p[0] == '%' then Like(s, p[1..]) || (s != [] && Like(s[1..], p))
    else s != [] && (p[0] == '_' || p[0] == s[0]) && Like(s[1..], p[1..])
  }

  /** `ILIKE`: LIKE after folding both sides to lower case. A wildcard-free
      pattern matches exactly the strings equal to it up to case. */
  predicate ILike(s: string, p: string)
    ensures NoWildcards(p) ==> (ILike(s, p) <==> Lower(s) == Lower(p))
  {
    Like(Lower(s), Lower(p))
  }

  /** A search term in which LIKE finds no wildcard. */
  predicate NoWildcards(t: string) {
    forall i :: 0 <= i < |t| ==> t[i] != '%' && t[i] != '_'
  }

  lemma {:induction false} LikeTrailingPercent(s: string)
    ensures Like(s, "%")
  {
    if s != [] {
      LikeTrailingPercent(s[1..]);
    }
  }

  /** A literal followed by `%` matches exactly the strings it begins. */
  lemma {:induction false} LikeLiteralPrefix(s: string, t: string)
    requires NoWildcards(t)
    ensures Like(s, t + "%") <==> t <= s
  {
    if t == [] {
      assert t + "%" == "%";
      LikeTrailingPercent(s);
    } else {
      assert (t + "%")[1..] == t[1..] + "%";
      if s != [] {
        LikeLiteralPrefix(s[1..], t[1..]);
        assert t <= s <==> t[0] == s[0] && t[1..] <= s[1..];
      }
    }
  }

  /** `%t%` with a wildcard-free `t` is a containment test. */
  lemma {:induction false} LikeContains(s: string, t: string)
    requires NoWildcards(t)
    ensures Like(s, "%" + t + "%") <==> Contains(s, t)
  {
    assert ("%" + t + "%")[1..] == t + "%";
    LikeLiteralPrefix(s, t);
    if s != [] {
      LikeContains(s[1..], t);
    }
  }

  /** A search for `_` is not a search for an underscore: it matches every
      non-empty name. */
  lemma UnderscoreMatchesAnyName(s: string)
    ensures Like(s, "%_%") <==> s != []
  {
    if s != [] {
      assert "%_%"[1..] == "_%";
      assert "_%"[1..] == "%";
      LikeTrailingPercent(s[1..]);
    }
  }

  // ------------------------------------------------------------------
  // get_products
  // ------------------------------------------------------------------

  /** Python truthiness of an optional query parameter: present and non-empty. */
  predicate Given(o: Option<string>) {
    o.Some? && o.value != ""
  }

  /** The three filters of the listing query. */
  function Listed(category: Option<string>, search: Option<string>): Product -> bool {
    (p: Product) =>
      && p.active
      && (Given(category) ==> p.category == category.value)
      && (Given(search) ==> ILike(p.name, "%" + search.value + "%"))
  }

  /** `get_products`: the catalogue in table order, keeping active products
      that pass the category filter and the name search. */
  function GetProducts(products: seq<Product>, category: Option<string>, search: Option<string>): (r: seq<Product>)
    ensures IsSubsequence(r, products)
    ensures forall p :: p in r <==> p in products && Listed(category, search)(p)
  {
    FilterIsSubsequence(products, Listed(category, search));
    Filter(products, Listed(category, search))
  }

  function IsActive(p: Product): bool { p.active }

  /** With neither filter given the listing is exactly the active products;
      any filter can only narrow it. */
  lemma GetProductsUnfiltered(products: seq<Product>, category: Option<string>, search: Option<string>)
    requires !Given(category) && !Given(search)
    ensures GetProducts(products, category, search) == Filter(products, IsActive)
  {
    FilterSameTest(products, Listed(category, search), IsActive);
  }

  lemma {:induction false} FilterSameTest<T(!new)>(s: seq<T>, p: T -> bool, q: T -> bool)
    requires forall x :: p(x) == q(x)
    ensures Filter(s, p) == Filter(s, q)
  {
    if s != [] {
      FilterSameTest(s[..|s| - 1], p, q);
    }
  }

  /** Case folding leaves LIKE's wildcard characters alone. */
  lemma LowerNoWildcards(t: string)
    requires NoWildcards(t)
    ensures NoWildcards(Lower(t))
  {
  }

  lemma LowerAppend(a: string, b: string)
    ensures Lower(a + b) == Lower(a) + Lower(b)
  {
    var l := Lower(a + b);
    assert forall i :: 0 <= i < |a + b| ==> l[i] == (Lower(a) + Lower(b))[i];
  }

  /** For a search term without `%` or `_`, the search keeps a product exactly
      when its name, lower-cased, contains the lower-cased term. The search
      never looks at the description. */
  lemma SearchIsCaseInsensitiveContainment(p: Product, category: Option<string>, search: string)
    requires NoWildcards(search) && search != ""
    ensures Listed(category, Some(search))(p) <==>
      p.active && (Given(category) ==> p.category == category.value) &&
      Contains(Lower(p.name), Lower(search))
  {
    LowerAppend("%" + search, "%");
    LowerAppend("%", search);
    assert Lower("%") == "%";
    LowerNoWildcards(search);
    LikeContains(Lower(p.name), Lower(search));
  }

  // ------------------------------------------------------------------
  // get_product
  // ------------------------------------------------------------------

  /** `get_product`: the first active product with the id, or a 404 when
      there is none (absent and inactive alike). */
  function GetProduct(products: seq<Product>, productId: string): (r: Result<Product>)
    ensures r.Success? <==> exists k :: 0 <= k < |products| && products[k].id == productId && products[k].active
    ensures r.Success? ==> r.value in products && r.value.id == productId && r.value.active
    ensures r.Failure? ==> r.error == HttpError(404, "Product not found")
  {
    match FindActiveProduct(products, productId)
    case Some(k) => Success(products[k])
    case None => Failure(HttpError(404, "Product not found"))
  }
}
