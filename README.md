# Shop catalog API — read-side model

A Dafny model of the read side of a small Django REST Framework catalog API
with three resources: categories, products and articles. Each record has a
primary key, a name, two timestamps and an `active` flag. A product belongs
to a category and an article to a product. The model covers:

- **Query resolution** (`shop/views.py`). Each viewset's `get_queryset` is a
  filter over its table (`Queries`). Categories keep their active rows.
  Products keep their active rows, narrowed to one category when
  `category_id` is given. Articles keep their active rows, narrowed to one
  product when `product_id` is given. `get_object` looks a primary key up
  inside that same queryset. So detail pages and `disable` cannot reach an
  inactive row, or a row outside the current filter.
- **Serializer selection** (`shop/views.py:13-18`). The detail class is used
  on `retrieve` when one is configured. Otherwise the list class is used.
  The article viewset has a single class (`Viewsets.GetSerializerClass`).
- **The read-only surface**. A `ReadOnlyModelViewSet` routes GET to `list`
  on the collection and to `retrieve` on a row. `disable` is a POST-only
  detail action on categories and products. Every other verb on a known
  route is a 405 and writes nothing (`Viewsets.Resolve`, `Viewsets.Dispatch`).
- **Representation** (`shop/serializer.py`). Each serializer projects a
  model instance onto its fixed, ordered field list. A list renders row by
  row (`Serializer`).
- **State**. The `Viewsets.Store` class holds the three tables.
  `Store.Handle` carries out one request. `Store.Disable` clears the target's
  flag; these are the only writes. Both methods are proved against the pure
  `Dispatch`, and the lemmas in `ViewsetProperties` and `Scenarios` are
  stated over `Dispatch`.

Field names are a datatype (`Serializer.FieldName`). `Serializer.Key` gives
the JSON key of each, and the shape lemmas give the keys as strings too.

Where the code behaves differently from what a reader may expect, the model
follows the code:

- A detail lookup goes through `get_queryset`, so it filters by `active`
  (and by `category_id`/`product_id` when given). It is not a plain lookup by
  primary key.
- `shop/serializer.py` declares no nested products or articles and no
  eco-score field. The product detail shape equals the list shape, as
  `shop/test.py:75-81` expects.
- `shop/views.py:5` imports five serializer names
  (`CategoryListSerializer`, `CategoryDetailSerializer`,
  `ProductListSerializer`, `ProductDetailSerializer`, `ArticleSerializer`).
  `shop/serializer.py` defines only `CategorySerializer`,
  `ProductSerializer` and `ArticleSerializer`. The model keeps the five
  names as the modes that selection picks (`Viewsets.SerializerClass`). It
  maps the list and detail names of a resource onto that resource's one field
  list (`Viewsets.FieldsOf`).
- Disabling a row twice is not idempotent-success. The second `disable` is
  a 404, because the row is then outside the active queryset
  (`ViewsetProperties.DisableTwiceNotFound`).

## Model

| member | source | states |
|---|---|---|
| `Serializer.Project` | shop/serializer.py:4-18 | a `Meta.fields` projection has exactly the listed keys, in order, each carrying the instance's value for that field |
| `Serializer.ProjectLookup` | shop/serializer.py:4-18 | reading key k from a projection gives the instance's value when k is listed, and nothing otherwise |
| `Serializer.ProjectAgree` | shop/serializer.py:4-18 | instances that agree on the listed fields have identical representations |
| `Seqs.Map` | shop/test.py:26-34 | rendering a list keeps its length and order, and item i is the rendering of row i |
| `Serializer.CategoryShape` | shop/serializer.py:4-7 | a category renders as exactly id, name, date_created, date_updated, in that order, with its own values |
| `Serializer.CategoryOmits` | shop/serializer.py:7-8 | a category representation has no description, active or products key |
| `Serializer.CategoryHidesDescription` | shop/serializer.py:7-8 | changing a category's description never changes its representation |
| `Serializer.ProductShape` | shop/serializer.py:10-13 | a product renders as exactly id, name, date_created, date_updated, category, where category is the owner's primary key |
| `Serializer.ArticleShape` | shop/serializer.py:15-18 | an article renders as exactly id, name, price, date_created, date_updated, product, where product is the owner's primary key |
| `Serializer.CategoryHidesActive` | shop/serializer.py:7 | two categories that differ only in `active` render identically |
| `Serializer.ProductHidesActive` | shop/serializer.py:13 | two products that differ only in `active` render identically |
| `Serializer.ArticleHidesActive` | shop/serializer.py:18 | two articles that differ only in `active` render identically |
| `Queries.Filter` | shop/views.py:27 | a queryset filter holds exactly the rows that satisfy the predicate, and never more rows than the table |
| `Queries.FilterKeepsOrder` | shop/views.py:40-44 | a filter keeps the rows it keeps in their original relative order |
| `Queries.FilterMultiplicity` | shop/views.py:27 | a filter keeps each satisfying row as many times as the table holds it and drops every other row |
| `Queries.FilterFilter` | shop/views.py:40-44 | two chained `.filter` calls equal one filter on the conjunction |
| `Queries.CategoryQueryset` | shop/views.py:26-27 | the category queryset holds exactly the active categories |
| `Queries.CategoryQuerysetOrder` | shop/views.py:26-27 | the category queryset keeps store order |
| `Queries.ProductQueryset` | shop/views.py:39-45 | the product queryset holds exactly the active products, and only category K's when `category_id` is K |
| `Queries.ProductCategoryNarrows` | shop/views.py:40-44 | narrowing to category K is the single filter "active and in K", and it is an order-preserving sub-list of the unfiltered list |
| `Queries.ArticleQueryset` | shop/views.py:56-61 | the article queryset holds exactly the active articles, and only product P's when `product_id` is P |
| `Queries.ArticleProductNarrows` | shop/views.py:57-61 | narrowing to product P is the single filter "active and of P", and it is an order-preserving sub-list of the unfiltered list |
| `Queries.GetObject` | shop/views.py:31 | the lookup returns a row of the queryset with that key, and returns none exactly when no row of the queryset has it |
| `Queries.GetObjectFinds` | shop/views.py:49 | when keys are unique, the lookup of a table row's key returns that row exactly when the row is in the queryset |
| `Viewsets.SelectionRule` | shop/views.py:13-18 | the list class is chosen iff the action is not `retrieve` or no detail class is set; the detail class is chosen iff the action is `retrieve` |
| `Viewsets.ViewsetSelections` | shop/views.py:20-54 | categories and products use their detail class on retrieve only, and articles always use ArticleSerializer |
| `Viewsets.CategoryViewIsSerializer` | shop/views.py:20-24 | a category renders with CategorySerializer's fields under either selected class |
| `Viewsets.ProductViewIsSerializer` | shop/views.py:34-37 | a product renders with ProductSerializer's fields under either selected class, so detail shape equals list shape |
| `Viewsets.ArticleViewIsSerializer` | shop/views.py:52-54 | an article renders with ArticleSerializer's fields for every action |
| `Viewsets.AcceptedRequests` | shop/views.py:20-52 | only GET on the collection (list), GET on a row (retrieve) and POST on a category or product row's `disable/` reach a handler |
| `Viewsets.FilterUpdate` | shop/views.py:29-32 | a filter after a row update equals a filter of the original table when the update fixes every kept row |
| `Viewsets.DisableKeepsKeys` | shop/views.py:29-32 | `disable` keeps every primary key, so keys stay unique |
| `Viewsets.Store.Disable` | shop/views.py:29-50 | `disable` returns a 404 and writes nothing when the target is not in the queryset; otherwise it clears the flag of the row with that key and changes nothing else (in the model, where `disable()` only clears the flag) |
| `Viewsets.Store.Handle` | shop/views.py:20-61 | one request produces the response and the new tables that `Dispatch` prescribes, and keys stay unique |
| `ViewsetProperties.CategoryList` | shop/views.py:26-27 | `GET /categories/` returns the active categories in store order, each rendered by CategorySerializer, and writes nothing |
| `ViewsetProperties.ProductList` | shop/views.py:39-45 | `GET /products/` returns the active products (of K with `category_id=K`) in store order, rendered by ProductSerializer |
| `ViewsetProperties.ArticleList` | shop/views.py:56-61 | `GET /articles/` returns the active articles (of P with `product_id=P`) in store order, rendered by ArticleSerializer |
| `ViewsetProperties.CategoryRetrieve` | shop/views.py:26-27 | a stored category's detail is its representation when it is active, and a 404 when it is inactive |
| `ViewsetProperties.ProductRetrieve` | shop/views.py:39-45 | a stored product's detail is found iff it is active and inside the `category_id` filter; otherwise it is a 404 |
| `ViewsetProperties.ArticleRetrieve` | shop/views.py:56-61 | a stored article's detail is found iff it is active and inside the `product_id` filter; otherwise it is a 404 |
| `ViewsetProperties.UnknownPkNotFound` | shop/views.py:20-27 | a primary key that no row has is a 404 on each detail route |
| `ViewsetProperties.WritesRejected` | shop/test.py:99-127 | any non-GET verb on a collection or on a row is a 405, and all tables are unchanged |
| `ViewsetProperties.OnlyDisableWrites` | shop/views.py:29-50 | a request that changes the tables is a routed `disable` answering with an empty body |
| `ViewsetProperties.ReadsRepeat` | shop/views.py:26-61 | a GET writes nothing, so repeating it gives the same response |
| `ViewsetProperties.CategoryDisable` | shop/views.py:29-32 | category `disable` succeeds iff an active category has the key; after it the list is the old list without that key and other tables are unchanged (in the model, where `disable()` only clears the flag); on failure it is a 404 with nothing changed |
| `ViewsetProperties.ProductDisable` | shop/views.py:47-50 | product `disable` succeeds iff an active product inside the filter has the key; after it every product list, filtered by any category or not, is the old one without that key, and only the products table changes (in the model, where `disable()` only clears the flag); on failure it is a 404 with nothing changed |
| `ViewsetProperties.ProductDisableHides` | shop/views.py:47-50 | after a product's flag is cleared, every product list, filtered or not, is the old one without that key |
| `ViewsetProperties.DisableTwiceNotFound` | shop/views.py:29-50 | a second `disable` of a row just disabled is a 404 that writes nothing |
| `Scenarios.CategoryListScenario` | shop/test.py:16-34 | with one active and one inactive category, the list holds only the active one's representation |
| `Scenarios.ProductScenario` | shop/test.py:48-97 | with an active and an inactive product of one category, the plain list, the list filtered by that category and the active product's detail show only the active product |

## Left out

- `Model.disable()` (called at `shop/views.py:31` and `:49`) is defined in `shop/models.py`, which is not part of this model. The model clears the `active` flag of the row with the target's key and saves it. Any further effect of that method, such as a cascade to child rows, is not modelled.
- The Django ORM, migrations, transactions and concurrent requests are not modelled. A table is a sequence in store order. The querysets declare no ordering, so the model keeps store order.
- URL routing by name, status-code rendering and JSON encoding are out. Responses are tags (`ListBody`, `ItemBody`, `EmptyBody`, `NotFound`, `MethodNotAllowed`).
- Parsing of the query string and the URL. `category_id`, `product_id` and the primary key arrive already parsed as integers. A non-integer value fails inside the ORM; that path is not modelled.
- HEAD and OPTIONS, which DRF answers with its own handlers, and DRF's permission, pagination and throttling hooks (none are configured in `shop/views.py`).
- Timestamp formatting with `strftime` (`shop/test.py:10`). Timestamps are opaque values copied into the representation.
- Prices are modelled as `real`. The decimal rendering of the price field is not modelled.
- Eco-score enrichment, nested filtered sub-collections, and write-path validation (a unique name, a name inside the description, price > 1). None of these exists in `shop/views.py` or `shop/serializer.py`.
- `shop/test.py` is evidence for the properties above, not a modelled unit.
