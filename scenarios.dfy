/**
 * The situations the shop's API tests set up, replayed against the model.
 */
module Scenarios {
  import opened Wrappers
  import opened Catalog
  import opened Queries
  import opened Seqs
  import S = Serializer
  import opened Viewsets
  import opened ViewsetProperties

  /** An active and an inactive category: the list holds the active one only (shop/test.py, test_list). */
  lemma CategoryListScenario(fruits: Category, legumes: Category)
    requires fruits.active && !legumes.active
    ensures Dispatch(Tables([fruits, legumes], [], []), Categories, Request(GET, ListRoute, Query(None, None))).response
         == ListBody([S.CategorySerializer(fruits)])
  {
    var t := Tables([fruits, legumes], [], []);
    CategoryList(t, Query(None, None));
    assert CategoryQueryset(t.categories) == [fruits];
  }

  /**
   * An active and an inactive product of one category: the list, the list
   * filtered by that category, and the active product's detail all show the
   * active product only (shop/test.py, TestProduct).
   */
  lemma ProductScenario(category: Category, name1: Product, name2: Product)
    requires name1.active && !name2.active
    requires name1.category == category.id && name2.category == category.id
    requires name1.id != name2.id
    ensures var t := Tables([category], [name1, name2], []);
      && Dispatch(t, Products, Request(GET, ListRoute, Query(None, None))).response
         == ListBody([S.ProductSerializer(name1)])
      && Dispatch(t, Products, Request(GET, ListRoute, Query(Some(category.id), None))).response
         == ListBody([S.ProductSerializer(name1)])
      && Dispatch(t, Products, Request(GET, DetailRoute(name1.id), Query(None, None))).response
         == ItemBody(S.ProductSerializer(name1))
  {
    var t := Tables([category], [name1, name2], []);
    ProductList(t, Query(None, None));
    ProductList(t, Query(Some(category.id), None));
    assert ProductQueryset(t.products, None) == [name1];
    assert ProductQueryset(t.products, Some(category.id)) == [name1];
    assert UniqueIds(t.products, ProductId);
    ProductRetrieve(t, name1, Query(None, None));
  }
}
