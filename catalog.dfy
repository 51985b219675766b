/**
 * The three catalog entities as the persistence layer stores them.
 * Field names follow the Django models that the serializers and views use.
 */
module Catalog {

  /** A primary key. */
  type Id = int

  /** A stored instant; it is copied into a representation, never inspected. */
  type Timestamp = int

  datatype Category = Category(
    id: Id,
    name: string,
    description: string,
    dateCreated: Timestamp,
    dateUpdated: Timestamp,
    active: bool)

  datatype Product = Product(
    id: Id,
    name: string,
    dateCreated: Timestamp,
    dateUpdated: Timestamp,
    active: bool,
    category: Id)       // the owning category's primary key

  datatype Article = Article(
    id: Id,
    name: string,
    price: real,
    dateCreated: Timestamp,
    dateUpdated: Timestamp,
    active: bool,
    product: Id)        // the owning product's primary key

  // Field accessors, passed to the generic query functions.

  function CategoryId(c: Category): Id { c.id }
  function ProductId(p: Product): Id { p.id }
  function ArticleId(a: Article): Id { a.id }

  predicate CategoryActive(c: Category) { c.active }
  predicate ProductActive(p: Product) { p.active }
  predicate ArticleActive(a: Article) { a.active }

  /** The primary-key constraint of a table: no two rows share an id. */
  ghost predicate UniqueIds<T>(rows: seq<T>, idOf: T -> Id) {
    forall i, j :: 0 <= i < |rows| && 0 <= j < |rows| && idOf(rows[i]) == idOf(rows[j]) ==> i == j
  }

  /** Under the primary-key constraint an id names at most one row. */
  lemma SameIdSameRow<T>(rows: seq<T>, idOf: T -> Id, x: T, y: T)
    requires UniqueIds(rows, idOf)
    requires x in rows && y in rows && idOf(x) == idOf(y)
    ensures x == y
  {
    var i :| 0 <= i < |rows| && rows[i] == x;
    var j :| 0 <= j < |rows| && rows[j] == y;
    assert idOf(rows[i]) == idOf(rows[j]);
  }
}
