/**
 * What a client of the shop API observes, stated over `Dispatch`: list
 * endpoints return exactly the active rows (narrowed by the query
 * parameters) rendered with the resource's serializer; detail lookups and
 * `disable` only find rows of that same queryset; refused verbs change
 * nothing; and a disabled row disappears from its list.
 */
module ViewsetProperties {
  import opened Wrappers
  import opened Catalog
  import opened Queries
  import opened Seqs
  import S = Serializer
  import opened Viewsets

  // ------------------------------------------------------------------ lists

  /** `GET /categories/`: the active categories, in store order, each rendered by CategorySerializer. */
  lemma CategoryList(t: Tables, q: Query)
    ensures Dispatch(t, Categories, Request(GET, ListRoute, q))
         == Outcome(ListBody(Map(CategoryQueryset(t.categories), S.CategorySerializer)), t)
  {
    var rows := CategoryQueryset(t.categories);
    forall i | 0 <= i < |rows| ensures CategoryView(List, rows[i]) == S.CategorySerializer(rows[i]) {
      CategoryViewIsSerializer(List, rows[i]);
    }
    MapAgree(rows, (c: Category) => CategoryView(List, c), S.CategorySerializer);
  }

  /** `GET /products/[?category_id=K]`: the active products (of K), in store order, rendered by ProductSerializer. */
  lemma ProductList(t: Tables, q: Query)
    ensures Dispatch(t, Products, Request(GET, ListRoute, q))
         == Outcome(ListBody(Map(ProductQueryset(t.products, q.categoryId), S.ProductSerializer)), t)
  {
    var rows := ProductQueryset(t.products, q.categoryId);
    forall i | 0 <= i < |rows| ensures ProductView(List, rows[i]) == S.ProductSerializer(rows[i]) {
      ProductViewIsSerializer(List, rows[i]);
    }
    MapAgree(rows, (p: Product) => ProductView(List, p), S.ProductSerializer);
  }

  /** `GET /articles/[?product_id=P]`: the active articles (of P), in store order, rendered by ArticleSerializer. */
  lemma ArticleList(t: Tables, q: Query)
    ensures Dispatch(t, Articles, Request(GET, ListRoute, q))
         == Outcome(ListBody(Map(ArticleQueryset(t.articles, q.productId), S.ArticleSerializer)), t)
  {
    var rows := ArticleQueryset(t.articles, q.productId);
    forall i | 0 <= i < |rows| ensures ArticleView(List, rows[i]) == S.ArticleSerializer(rows[i]) {
      ArticleViewIsSerializer(List, rows[i]);
    }
    MapAgree(rows, (a: Article) => ArticleView(List, a), S.ArticleSerializer);
  }

  // ---------------------------------------------------------------- details

  /** `GET /categories/{id}/`: the category's representation when it is active, a 404 otherwise. */
  lemma CategoryRetrieve(t: Tables, c: Category, q: Query)
    requires UniqueIds(t.categories, CategoryId)
    requires c in t.categories
    ensures Dispatch(t, Categories, Request(GET, DetailRoute(c.id), q)).response
         == if c.active then ItemBody(S.CategorySerializer(c)) else NotFound
  {
    GetObjectFinds(t.categories, CategoryQueryset(t.categories), CategoryId, c);
    CategoryViewIsSerializer(Retrieve, c);
  }

  /**
   * `GET /products/{id}/[?category_id=K]`: found only when the product is
   * active and, when K is given, belongs to K; a 404 otherwise.
   */
  lemma ProductRetrieve(t: Tables, p: Product, q: Query)
    requires UniqueIds(t.products, ProductId)
    requires p in t.products
    ensures Dispatch(t, Products, Request(GET, DetailRoute(p.id), q)).response
         == if p.active && (q.categoryId.Some? ==> p.category == q.categoryId.value)
            then ItemBody(S.ProductSerializer(p)) else NotFound
  {
    GetObjectFinds(t.products, ProductQueryset(t.products, q.categoryId), ProductId, p);
    ProductViewIsSerializer(Retrieve, p);
  }

  /** `GET /articles/{id}/[?product_id=P]`: found only when active and, when P is given, of P. */
  lemma ArticleRetrieve(t: Tables, a: Article, q: Query)
    requires UniqueIds(t.articles, ArticleId)
    requires a in t.articles
    ensures Dispatch(t, Articles, Request(GET, DetailRoute(a.id), q)).response
         == if a.active && (q.productId.Some? ==> a.product == q.productId.value)
            then ItemBody(S.ArticleSerializer(a)) else NotFound
  {
    GetObjectFinds(t.articles, ArticleQueryset(t.articles, q.productId), ArticleId, a);
    ArticleViewIsSerializer(Retrieve, a);
  }

  /** A primary key that no row has is a 404 on every detail route. */
  lemma UnknownPkNotFound(t: Tables, pk: Id, q: Query)
    ensures (forall c :: c in t.categories ==> c.id != pk) ==>
      Dispatch(t, Categories, Request(GET, DetailRoute(pk), q)).response == NotFound
    ensures (forall p :: p in t.products ==> p.id != pk) ==>
      Dispatch(t, Products, Request(GET, DetailRoute(pk), q)).response == NotFound
    ensures (forall a :: a in t.articles ==> a.id != pk) ==>
      Dispatch(t, Articles, Request(GET, DetailRoute(pk), q)).response == NotFound
  {
  }

  // ------------------------------------------------------- read-only surface

  /**
   * Creating (any verb but GET on a collection) and updating or deleting
   * (any verb but GET on a row) are refused with 405 and leave every table as
   * it was.
   */
  lemma WritesRejected(t: Tables, resource: Resource, verb: HttpMethod, pk: Id, q: Query)
    requires verb != GET
    ensures Dispatch(t, resource, Request(verb, ListRoute, q)) == Outcome(MethodNotAllowed, t)
    ensures Dispatch(t, resource, Request(verb, DetailRoute(pk), q)) == Outcome(MethodNotAllowed, t)
  {
  }

  /** The only request that changes the store is a `disable` that found its target. */
  lemma OnlyDisableWrites(t: Tables, resource: Resource, req: Request)
    ensures Dispatch(t, resource, req).tables != t ==>
      Resolve(resource, req.verb, req.route) == Routed(Disable) && Dispatch(t, resource, req).response == EmptyBody
  {
  }

  /** A GET changes nothing, so repeating it gives the same response. */
  lemma ReadsRepeat(t: Tables, resource: Resource, req: Request)
    requires req.verb == GET
    ensures Dispatch(t, resource, req).tables == t
    ensures Dispatch(Dispatch(t, resource, req).tables, resource, req) == Dispatch(t, resource, req)
  {
    assert Resolve(resource, req.verb, req.route) != Routed(Disable);
  }

  // ---------------------------------------------------------------- disable

  /**
   * `POST /categories/{pk}/disable/` succeeds exactly when an active category
   * has that key; on success the category list is the old one without that
   * key, and nothing else changes; on failure it is a 404 and nothing
   * changes at all.
   */
  lemma CategoryDisable(t: Tables, pk: Id, q: Query)
    ensures var o := Dispatch(t, Categories, Request(POST, DisableRoute(pk), q));
      && (o.response == EmptyBody <==> exists c :: c in CategoryQueryset(t.categories) && c.id == pk)
      && (o.response != EmptyBody ==> o == Outcome(NotFound, t))
      && |o.tables.categories| == |t.categories|
      && o.tables.products == t.products
      && o.tables.articles == t.articles
      && CategoryQueryset(o.tables.categories)
         == Filter(CategoryQueryset(t.categories), (c: Category) => c.id != pk)
  {
    var o := Dispatch(t, Categories, Request(POST, DisableRoute(pk), q));
    var rows := CategoryQueryset(t.categories);
    var others := (c: Category) => c.id != pk;
    if o.response == EmptyBody {
      var upd := (c: Category) => if c.id == pk then c.(active := false) else c;
      var keep := (c: Category) => c.active && c.id != pk;
      assert o.tables.categories == Map(t.categories, upd);
      FilterUpdate(t.categories, upd, CategoryActive, keep);
      FilterFilter(t.categories, CategoryActive, others, keep);
    } else {
      FilterAll(rows, others);
    }
  }

  /**
   * `POST /products/{pk}/disable/[?category_id=K]` succeeds exactly when an
   * active product (of K) has that key, and then changes only the products
   * table, after which every product list (filtered by any category or not)
   * is the old one without that key; on failure it is a 404 and nothing
   * changes.
   */
  lemma ProductDisable(t: Tables, pk: Id, q: Query, later: Option<Id>)
    ensures var o := Dispatch(t, Products, Request(POST, DisableRoute(pk), q));
      && (o.response == EmptyBody <==> exists p :: p in ProductQueryset(t.products, q.categoryId) && p.id == pk)
      && (o.response != EmptyBody ==> o == Outcome(NotFound, t))
      && |o.tables.products| == |t.products|
      && o.tables.categories == t.categories
      && o.tables.articles == t.articles
      && (o.response == EmptyBody ==>
            ProductQueryset(o.tables.products, later)
            == Filter(ProductQueryset(t.products, later), (p: Product) => p.id != pk))
  {
    var o := Dispatch(t, Products, Request(POST, DisableRoute(pk), q));
    if o.response == EmptyBody {
      assert o.tables.products == DisableProductRow(t.products, pk);
      ProductDisableHides(t.products, pk, later);
    }
  }

  /**
   * Clearing the flag of the product with key `pk` removes exactly that key
   * from every product list, with or without a category filter.
   */
  lemma ProductDisableHides(products: seq<Product>, pk: Id, later: Option<Id>)
    ensures ProductQueryset(DisableProductRow(products, pk), later)
         == Filter(ProductQueryset(products, later), (p: Product) => p.id != pk)
  {
    var others := (p: Product) => p.id != pk;
    var upd := (p: Product) => if p.id == pk then p.(active := false) else p;
    assert DisableProductRow(products, pk) == Map(products, upd);
    match later {
      case None =>
        var keep := (p: Product) => p.active && p.id != pk;
        FilterUpdate(products, upd, ProductActive, keep);
        FilterFilter(products, ProductActive, others, keep);
      case Some(k) =>
        var inK := (p: Product) => p.active && p.category == k;
        var keep := (p: Product) => p.active && p.category == k && p.id != pk;
        ProductCategoryNarrows(DisableProductRow(products, pk), k);
        ProductCategoryNarrows(products, k);
        FilterUpdate(products, upd, inK, keep);
        FilterFilter(products, inK, others, keep);
    }
  }

  /** After a successful `disable`, the row is in no list and a second `disable` of it is a 404. */
  lemma DisableTwiceNotFound(t: Tables, resource: Resource, pk: Id, q: Query)
    requires resource != Articles
    ensures var req := Request(POST, DisableRoute(pk), q);
      var o := Dispatch(t, resource, req);
      o.response == EmptyBody ==> Dispatch(o.tables, resource, req) == Outcome(NotFound, o.tables)
  {
    var req := Request(POST, DisableRoute(pk), q);
    var o := Dispatch(t, resource, req);
    if resource == Categories {
      CategoryDisable(t, pk, q);
    } else {
      ProductDisable(t, pk, q, q.categoryId);
      if o.response == EmptyBody {
        ProductDisableHides(t.products, pk, q.categoryId);
      }
    }
  }
}
