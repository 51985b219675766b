/**
 * Query resolution of the shop's viewsets: the querysets their
 * `get_queryset` methods build, and the single-record lookup that DRF's
 * `get_object` performs over such a queryset. A table is a sequence of rows
 * in the store's order; a queryset keeps that order.
 */
module Queries {
  import opened Wrappers
  import opened Catalog

  // ------------------------------------------------------------ filtering

  /** `queryset.filter(...)`: the rows satisfying `p`, in their original order. */
  function Filter<T(!new)>(s: seq<T>, p: T -> bool): (r: seq<T>)
    ensures |r| <= |s|
    ensures forall x :: x in r <==> x in s && p(x)
  {
    if s == [] then []
    else if p(s[0]) then [s[0]] + Filter(s[1..], p)
    else Filter(s[1..], p)
  }

  /** Filtering keeps every satisfying row as often as the table holds it, and no other row. */
  lemma {:induction false} FilterMultiplicity<T(!new)>(s: seq<T>, p: T -> bool)
    ensures forall x :: multiset(Filter(s, p))[x] == if p(x) then multiset(s)[x] else 0
  {
    if s != [] {
      FilterMultiplicity(s[1..], p);
      assert s == [s[0]] + s[1..];
    }
  }

  /** `a` is `b` with some rows dropped and the rest in the same order. */
  ghost predicate Subsequence<T>(a: seq<T>, b: seq<T>)
    decreases |b|
  {
    a == [] || (b != [] && ((a[0] == b[0] && Subsequence(a[1..], b[1..])) || Subsequence(a, b[1..])))
  }

  /** Filtering keeps the relative order of the rows it keeps. */
  lemma {:induction false} FilterKeepsOrder<T(!new)>(s: seq<T>, p: T -> bool)
    ensures Subsequence(Filter(s, p), s)
  {
    if s != [] {
      FilterKeepsOrder(s[1..], p);
    }
  }

  /** Chained filters are one filter on the conjunction. */
  lemma {:induction false} FilterFilter<T(!new)>(s: seq<T>, p: T -> bool, q: T -> bool, pq: T -> bool)
    requires forall x :: pq(x) == (p(x) && q(x))
    ensures Filter(Filter(s, p), q) == Filter(s, pq)
  {
    if s != [] {
      FilterFilter(s[1..], p, q, pq);
    }
  }

  /** A filter every row passes keeps the whole sequence. */
  lemma {:induction false} FilterAll<T(!new)>(s: seq<T>, p: T -> bool)
    requires forall x :: x in s ==> p(x)
    ensures Filter(s, p) == s
  {
    if s != [] {
      FilterAll(s[1..], p);
    }
  }

  // ------------------------------------------------------------- querysets

  /** `CategoryViewset.get_queryset`: the active categories. */
  function CategoryQueryset(categories: seq<Category>): (r: seq<Category>)
    ensures forall c :: c in r <==> c in categories && c.active
  {
    Filter(categories, CategoryActive)
  }

  /** `ProductViewset.get_queryset`: the active products, narrowed to one category when `category_id` is given. */
  function ProductQueryset(products: seq<Product>, categoryId: Option<Id>): (r: seq<Product>)
    ensures forall p :: p in r <==>
      p in products && p.active && (categoryId.Some? ==> p.category == categoryId.value)
  {
    var queryset := Filter(products, ProductActive);
    match categoryId
    case None => queryset
    case Some(k) => Filter(queryset, (p: Product) => p.category == k)
  }

  /** `ArticleViewset.get_queryset`: the active articles, narrowed to one product when `product_id` is given. */
  function ArticleQueryset(articles: seq<Article>, productId: Option<Id>): (r: seq<Article>)
    ensures forall a :: a in r <==>
      a in articles && a.active && (productId.Some? ==> a.product == productId.value)
  {
    var queryset := Filter(articles, ArticleActive);
    match productId
    case None => queryset
    case Some(k) => Filter(queryset, (a: Article) => a.product == k)
  }

  /** The category list keeps the store's order. */
  lemma CategoryQuerysetOrder(categories: seq<Category>)
    ensures Subsequence(CategoryQueryset(categories), categories)
  {
    FilterKeepsOrder(categories, CategoryActive);
  }

  /**
   * Narrowing by category K is the single filter "active and in K" over the
   * table, and it drops rows from the unfiltered list without reordering it.
   */
  lemma ProductCategoryNarrows(products: seq<Product>, k: Id)
    ensures ProductQueryset(products, Some(k))
         == Filter(products, (p: Product) => p.active && p.category == k)
    ensures Subsequence(ProductQueryset(products, Some(k)), ProductQueryset(products, None))
  {
    FilterFilter(products, ProductActive, (p: Product) => p.category == k,
                 (p: Product) => p.active && p.category == k);
    FilterKeepsOrder(ProductQueryset(products, None), (p: Product) => p.category == k);
  }

  /** Narrowing by product P is the single filter "active and of P" and keeps the unfiltered order. */
  lemma ArticleProductNarrows(articles: seq<Article>, k: Id)
    ensures ArticleQueryset(articles, Some(k))
         == Filter(articles, (a: Article) => a.active && a.product == k)
    ensures Subsequence(ArticleQueryset(articles, Some(k)), ArticleQueryset(articles, None))
  {
    FilterFilter(articles, ArticleActive, (a: Article) => a.product == k,
                 (a: Article) => a.active && a.product == k);
    FilterKeepsOrder(ArticleQueryset(articles, None), (a: Article) => a.product == k);
  }

  // ---------------------------------------------------------------- lookup

  /**
   * `get_object`: the row of the queryset whose primary key is `pk`, or None
   * (a 404) when the queryset has no such row.
   */
  function GetObject<T(!new)>(queryset: seq<T>, idOf: T -> Id, pk: Id): (r: Option<T>)
    ensures r.Some? ==> r.value in queryset && idOf(r.value) == pk
    ensures r.None? <==> forall x :: x in queryset ==> idOf(x) != pk
  {
    if queryset == [] then None
    else if idOf(queryset[0]) == pk then Some(queryset[0])
    else GetObject(queryset[1..], idOf, pk)
  }

  /** Under the primary-key constraint the lookup returns THE row with that key. */
  lemma GetObjectFinds<T(!new)>(table: seq<T>, queryset: seq<T>, idOf: T -> Id, x: T)
    requires UniqueIds(table, idOf)
    requires forall y :: y in queryset ==> y in table
    requires x in table
    ensures GetObject(queryset, idOf, idOf(x)) == if x in queryset then Some(x) else None
  {
    var r := GetObject(queryset, idOf, idOf(x));
    if r.Some? {
      SameIdSameRow(table, idOf, r.value, x);
    }
  }
}
