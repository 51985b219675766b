/**
 * The shop's viewsets: which serializer each action uses, which HTTP verbs a
 * ReadOnlyModelViewSet with a `disable` action accepts, what each accepted
 * request returns, and how `disable` changes the store. `Dispatch` is the
 * specification; the `Store` class carries the tables and implements it.
 */
module Viewsets {
  import opened Wrappers
  import opened Catalog
  import opened Queries
  import opened Seqs
  import S = Serializer

  // ---------------------------------------------------- serializer selection

  /** The serializer classes the viewsets name. */
  datatype SerializerClass =
    | CategoryListSerializer | CategoryDetailSerializer
    | ProductListSerializer | ProductDetailSerializer
    | ArticleSerializer

  /** The viewset actions that reach a handler. */
  datatype Action = List | Retrieve | Disable

  /** The class attributes serializer selection reads. */
  datatype ViewsetConfig = ViewsetConfig(serializerClass: SerializerClass, detailSerializerClass: Option<SerializerClass>)

  const CategoryViewset := ViewsetConfig(CategoryListSerializer, Some(CategoryDetailSerializer))
  const ProductViewset := ViewsetConfig(ProductListSerializer, Some(ProductDetailSerializer))
  /** ArticleViewset has no mixin: the base selection, which is the mixin's with no detail class. */
  const ArticleViewset := ViewsetConfig(ArticleSerializer, None)

  /** `MultipleSerializerMixin.get_serializer_class`. */
  function GetSerializerClass(viewset: ViewsetConfig, action: Action): SerializerClass
  {
    if action == Retrieve && viewset.detailSerializerClass.Some? then viewset.detailSerializerClass.value
    else viewset.serializerClass
  }

  /**
   * The detail class is chosen exactly when the action is `retrieve` and one
   * is configured; in every other case the list class is chosen.
   */
  lemma SelectionRule(viewset: ViewsetConfig, action: Action)
    requires viewset.detailSerializerClass != Some(viewset.serializerClass)
    ensures (GetSerializerClass(viewset, action) == viewset.serializerClass)
        <==> !(action == Retrieve && viewset.detailSerializerClass.Some?)
    ensures viewset.detailSerializerClass.Some? ==>
      ((GetSerializerClass(viewset, action) == viewset.detailSerializerClass.value) <==> action == Retrieve)
  {
  }

  /** The three viewsets: detail classes on retrieve only, and one class for articles. */
  lemma ViewsetSelections(action: Action)
    ensures GetSerializerClass(CategoryViewset, action)
         == if action == Retrieve then CategoryDetailSerializer else CategoryListSerializer
    ensures GetSerializerClass(ProductViewset, action)
         == if action == Retrieve then ProductDetailSerializer else ProductListSerializer
    ensures GetSerializerClass(ArticleViewset, action) == ArticleSerializer
  {
  }

  /**
   * The field list each class name stands for. The list and detail names of
   * a resource both stand for that resource's one serializer's fields.
   */
  function FieldsOf(cls: SerializerClass): seq<S.FieldName>
  {
    match cls
    case CategoryListSerializer | CategoryDetailSerializer => S.CategoryFields
    case ProductListSerializer | ProductDetailSerializer => S.ProductFields
    case ArticleSerializer => S.ArticleFields
  }

  /** The representation of one row under the class the action selects. */
  function CategoryView(action: Action, c: Category): S.View
  {
    S.Project(FieldsOf(GetSerializerClass(CategoryViewset, action)), S.CategoryInstance(c))
  }

  function ProductView(action: Action, p: Product): S.View
  {
    S.Project(FieldsOf(GetSerializerClass(ProductViewset, action)), S.ProductInstance(p))
  }

  function ArticleView(action: Action, a: Article): S.View
  {
    S.Project(FieldsOf(GetSerializerClass(ArticleViewset, action)), S.ArticleInstance(a))
  }

  /** Whatever the action, a category renders with CategorySerializer: the detail shape is the list shape. */
  lemma CategoryViewIsSerializer(action: Action, c: Category)
    ensures CategoryView(action, c) == S.CategorySerializer(c)
  {
    ViewsetSelections(action);
  }

  /** Whatever the action, a product renders with ProductSerializer: the detail shape is the list shape. */
  lemma ProductViewIsSerializer(action: Action, p: Product)
    ensures ProductView(action, p) == S.ProductSerializer(p)
  {
    ViewsetSelections(action);
  }

  /** Whatever the action, an article renders with ArticleSerializer. */
  lemma ArticleViewIsSerializer(action: Action, a: Article)
    ensures ArticleView(action, a) == S.ArticleSerializer(a)
  {
    ViewsetSelections(action);
  }

  // ---------------------------------------------------------------- routing

  datatype Resource = Categories | Products | Articles

  datatype HttpMethod = GET | POST | PUT | PATCH | DELETE

  /** The URL patterns the router generates: the collection, one row, one row's `disable/`. */
  datatype Route = ListRoute | DetailRoute(pk: Id) | DisableRoute(pk: Id)

  /** The query string parameters the querysets read, already parsed. */
  datatype Query = Query(categoryId: Option<Id>, productId: Option<Id>)

  datatype Request = Request(verb: HttpMethod, route: Route, query: Query)

  datatype Resolution = Routed(action: Action) | NoRoute | NotAllowed

  /**
   * The router of a ReadOnlyModelViewSet: GET is `list` on the collection and
   * `retrieve` on one row; `disable` is a POST-only detail action, declared on
   * the category and product viewsets only. Any other verb on a known route is
   * refused before a handler runs.
   */
  function Resolve(resource: Resource, verb: HttpMethod, route: Route): Resolution
  {
    match route
    case ListRoute => if verb == GET then Routed(List) else NotAllowed
    case DetailRoute(_) => if verb == GET then Routed(Retrieve) else NotAllowed
    case DisableRoute(_) =>
      if resource == Articles then NoRoute
      else if verb == POST then Routed(Disable)
      else NotAllowed
  }

  /** Only list, retrieve and disable are accepted, each on its own verb and route. */
  lemma AcceptedRequests(resource: Resource, verb: HttpMethod, route: Route)
    ensures Resolve(resource, verb, route) == Routed(List) <==> verb == GET && route == ListRoute
    ensures Resolve(resource, verb, route) == Routed(Retrieve) <==> verb == GET && route.DetailRoute?
    ensures Resolve(resource, verb, route) == Routed(Disable)
        <==> verb == POST && route.DisableRoute? && resource != Articles
  {
  }

  // ------------------------------------------------------------- responses

  datatype Response =
    | ListBody(items: seq<S.View>)
    | ItemBody(item: S.View)
    | EmptyBody                     // `Response()` of the disable action
    | NotFound                      // 404
    | MethodNotAllowed              // 405

  /** The store's three tables. */
  datatype Tables = Tables(categories: seq<Category>, products: seq<Product>, articles: seq<Article>)

  datatype Outcome = Outcome(response: Response, tables: Tables)

  /** `list`: the queryset rendered row by row, as a `many=True` serializer does. */
  function ListResponse(t: Tables, resource: Resource, q: Query): Response
  {
    match resource
    case Categories =>
      ListBody(Map(CategoryQueryset(t.categories), (c: Category) => CategoryView(List, c)))
    case Products =>
      ListBody(Map(ProductQueryset(t.products, q.categoryId), (p: Product) => ProductView(List, p)))
    case Articles =>
      ListBody(Map(ArticleQueryset(t.articles, q.productId), (a: Article) => ArticleView(List, a)))
  }

  /** `retrieve`: `get_object` over the queryset, rendered, or a 404. */
  function RetrieveResponse(t: Tables, resource: Resource, pk: Id, q: Query): Response
  {
    match resource
    case Categories =>
      (match GetObject(CategoryQueryset(t.categories), CategoryId, pk)
       case None => NotFound
       case Some(c) => ItemBody(CategoryView(Retrieve, c)))
    case Products =>
      (match GetObject(ProductQueryset(t.products, q.categoryId), ProductId, pk)
       case None => NotFound
       case Some(p) => ItemBody(ProductView(Retrieve, p)))
    case Articles =>
      (match GetObject(ArticleQueryset(t.articles, q.productId), ArticleId, pk)
       case None => NotFound
       case Some(a) => ItemBody(ArticleView(Retrieve, a)))
  }

  // ---------------------------------------------------------------- disable

  /**
   * Filtering after an update is a filter of the original table, provided
   * the update fixes every row the second filter keeps.
   */
  lemma {:induction false} FilterUpdate<T(!new)>(s: seq<T>, upd: T -> T, p: T -> bool, q: T -> bool)
    requires forall x :: p(upd(x)) == q(x)
    requires forall x :: q(x) ==> upd(x) == x
    ensures Filter(Map(s, upd), p) == Filter(s, q)
  {
    if s != [] {
      FilterUpdate(s[1..], upd, p, q);
      assert Map(s, upd)[1..] == Map(s[1..], upd);
    }
  }

  /** The target's `disable()` and save: the row with primary key `pk` loses its active flag. */
  function DisableCategoryRow(categories: seq<Category>, pk: Id): seq<Category>
  {
    Map(categories, (c: Category) => if c.id == pk then c.(active := false) else c)
  }

  function DisableProductRow(products: seq<Product>, pk: Id): seq<Product>
  {
    Map(products, (p: Product) => if p.id == pk then p.(active := false) else p)
  }

  /** `disable`: `get_object` over the queryset (a 404 if absent), then the target's flag is cleared. */
  function DisableOutcome(t: Tables, resource: Resource, pk: Id, q: Query): Outcome
    requires resource != Articles
  {
    if resource == Categories then
      if GetObject(CategoryQueryset(t.categories), CategoryId, pk).None? then Outcome(NotFound, t)
      else Outcome(EmptyBody, t.(categories := DisableCategoryRow(t.categories, pk)))
    else
      if GetObject(ProductQueryset(t.products, q.categoryId), ProductId, pk).None? then Outcome(NotFound, t)
      else Outcome(EmptyBody, t.(products := DisableProductRow(t.products, pk)))
  }

  // --------------------------------------------------------------- dispatch

  /** One request against the store: its response and the tables afterwards. */
  function Dispatch(t: Tables, resource: Resource, req: Request): Outcome
  {
    match Resolve(resource, req.verb, req.route)
    case NoRoute => Outcome(NotFound, t)
    case NotAllowed => Outcome(MethodNotAllowed, t)
    case Routed(List) => Outcome(ListResponse(t, resource, req.query), t)
    case Routed(Retrieve) => Outcome(RetrieveResponse(t, resource, req.route.pk, req.query), t)
    case Routed(Disable) => DisableOutcome(t, resource, req.route.pk, req.query)
  }

  /** Clearing a flag keeps every primary key, so the primary-key constraint survives `disable`. */
  lemma DisableKeepsKeys(t: Tables, resource: Resource, pk: Id, q: Query)
    requires resource != Articles
    requires UniqueIds(t.categories, CategoryId) && UniqueIds(t.products, ProductId) && UniqueIds(t.articles, ArticleId)
    ensures var t' := DisableOutcome(t, resource, pk, q).tables;
      UniqueIds(t'.categories, CategoryId) && UniqueIds(t'.products, ProductId) && UniqueIds(t'.articles, ArticleId)
  {
    var t' := DisableOutcome(t, resource, pk, q).tables;
    assert forall i :: 0 <= i < |t.categories| ==> CategoryId(t'.categories[i]) == CategoryId(t.categories[i]);
    assert forall i :: 0 <= i < |t.products| ==> ProductId(t'.products[i]) == ProductId(t.products[i]);
  }

  // ------------------------------------------------------------------ store

  /** The catalog tables that the viewsets read and that `disable` writes. */
  class Store {
    var categories: seq<Category>
    var products: seq<Product>
    var articles: seq<Article>

    /** The primary-key constraint of each table. */
    ghost predicate Valid()
      reads this
    {
      UniqueIds(categories, CategoryId) && UniqueIds(products, ProductId) && UniqueIds(articles, ArticleId)
    }

    function Snapshot(): Tables
      reads this
    {
      Tables(categories, products, articles)
    }

    constructor (t: Tables)
      ensures Snapshot() == t
    {
      categories, products, articles := t.categories, t.products, t.articles;
    }

    /**
     * The `disable` action of the category and product viewsets: find the
     * target through the viewset's queryset, then clear its active flag.
     */
    method Disable(resource: Resource, pk: Id, q: Query) returns (response: Response)
      requires resource != Articles
      modifies this
      ensures Outcome(response, Snapshot()) == DisableOutcome(old(Snapshot()), resource, pk, q)
      ensures old(Valid()) ==> Valid()
    {
      ghost var before := Snapshot();
      if resource == Categories {
        var target := GetObject(CategoryQueryset(categories), CategoryId, pk);
        if target.None? {
          return NotFound;
        }
        categories := DisableCategoryRow(categories, target.value.id);
      } else {
        var target := GetObject(ProductQueryset(products, q.categoryId), ProductId, pk);
        if target.None? {
          return NotFound;
        }
        products := DisableProductRow(products, target.value.id);
      }
      response := EmptyBody;
      if old(Valid()) {
        DisableKeepsKeys(before, resource, pk, q);
      }
    }

    /** Handles one request: routing, then the accepted action, or a 404 or 405 with no write. */
    method Handle(resource: Resource, req: Request) returns (response: Response)
      modifies this
      ensures Outcome(response, Snapshot()) == Dispatch(old(Snapshot()), resource, req)
      ensures old(Valid()) ==> Valid()
    {
      match Resolve(resource, req.verb, req.route)
      case NoRoute =>
        response := NotFound;
      case NotAllowed =>
        response := MethodNotAllowed;
      case Routed(List) =>
        response := ListResponse(Snapshot(), resource, req.query);
      case Routed(Retrieve) =>
        response := RetrieveResponse(Snapshot(), resource, req.route.pk, req.query);
      case Routed(Disable) =>
        response := Disable(resource, req.route.pk, req.query);
    }
  }
}
