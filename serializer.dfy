/**
 * The model serializers of the shop: each one projects a model instance onto
 * a fixed, ordered list of field names. A rendered representation is the
 * ordered sequence of (field name, value) pairs that becomes a JSON object.
 */
module Serializer {
  import opened Wrappers
  import opened Catalog

  /** A field value as a representation carries it. */
  datatype Value =
    | IntValue(i: int)
    | TextValue(s: string)
    | TimeValue(t: Timestamp)
    | DecimalValue(d: real)
    | BoolValue(b: bool)

  /** The model fields a serializer can name; `Key` gives the JSON key of each. */
  datatype FieldName =
    | IdField | NameField | DescriptionField | PriceField
    | DateCreatedField | DateUpdatedField | ActiveField
    | CategoryField | ProductField | ProductsField

  function Key(f: FieldName): string
  {
    match f
    case IdField => "id"
    case NameField => "name"
    case DescriptionField => "description"
    case PriceField => "price"
    case DateCreatedField => "date_created"
    case DateUpdatedField => "date_updated"
    case ActiveField => "active"
    case CategoryField => "category"
    case ProductField => "product"
    case ProductsField => "products"
  }

  /** A model instance as a serializer sees it. */
  datatype Instance =
    | CategoryInstance(category: Category)
    | ProductInstance(product: Product)
    | ArticleInstance(article: Article)

  /** The value of a model field of an instance; None for a name its model lacks. */
  function Attribute(inst: Instance, f: FieldName): Option<Value>
  {
    match inst
    case CategoryInstance(c) => CategoryAttribute(c, f)
    case ProductInstance(p) => ProductAttribute(p, f)
    case ArticleInstance(a) => ArticleAttribute(a, f)
  }

  /** A representation: field names and values, in order. */
  type View = seq<(FieldName, Value)>

  /** The field names of a representation, in order. */
  function Keys(v: View): (ks: seq<FieldName>)
    ensures |ks| == |v|
    ensures forall i :: 0 <= i < |v| ==> ks[i] == v[i].0
  {
    if v == [] then [] else [v[0].0] + Keys(v[1..])
  }

  /** The value a JSON reader finds under key `k` (the first pair with that name). */
  function Lookup(v: View, k: FieldName): Option<Value>
  {
    if v == [] then None
    else if v[0].0 == k then Some(v[0].1)
    else Lookup(v[1..], k)
  }

  /** The projection a ModelSerializer with `Meta.fields = fields` performs. */
  function Project(fields: seq<FieldName>, inst: Instance): (v: View)
    requires forall k :: k in fields ==> Attribute(inst, k).Some?
    ensures Keys(v) == fields
    ensures forall i :: 0 <= i < |v| ==> v[i] == (fields[i], Attribute(inst, fields[i]).value)
  {
    if fields == [] then []
    else [(fields[0], Attribute(inst, fields[0]).value)] + Project(fields[1..], inst)
  }

  /** A projected key carries the instance's value; any other key is absent. */
  lemma {:induction false} ProjectLookup(fields: seq<FieldName>, inst: Instance, k: FieldName)
    requires forall f :: f in fields ==> Attribute(inst, f).Some?
    ensures Lookup(Project(fields, inst), k) == if k in fields then Attribute(inst, k) else None
  {
    if fields != [] {
      ProjectLookup(fields[1..], inst, k);
      assert fields == [fields[0]] + fields[1..];
    }
  }

  /** Two instances that agree on the projected fields have the same representation. */
  lemma {:induction false} ProjectAgree(fields: seq<FieldName>, inst1: Instance, inst2: Instance)
    requires forall f :: f in fields ==> Attribute(inst1, f).Some? && Attribute(inst1, f) == Attribute(inst2, f)
    ensures Project(fields, inst1) == Project(fields, inst2)
  {
    if fields != [] {
      ProjectAgree(fields[1..], inst1, inst2);
    }
  }

  // ---------------------------------------------------------------- fields

  const CategoryFields: seq<FieldName> := [IdField, NameField, DateCreatedField, DateUpdatedField]
  const ProductFields: seq<FieldName> := [IdField, NameField, DateCreatedField, DateUpdatedField, CategoryField]
  const ArticleFields: seq<FieldName> := [IdField, NameField, PriceField, DateCreatedField, DateUpdatedField, ProductField]

  // ------------------------------------------------------------- instances

  /** Every model field of a category, as the ORM exposes it. */
  function CategoryAttribute(c: Category, f: FieldName): Option<Value>
  {
    match f
    case IdField => Some(IntValue(c.id))
    case NameField => Some(TextValue(c.name))
    case DescriptionField => Some(TextValue(c.description))
    case DateCreatedField => Some(TimeValue(c.dateCreated))
    case DateUpdatedField => Some(TimeValue(c.dateUpdated))
    case ActiveField => Some(BoolValue(c.active))
    case _ => None
  }

  /** Every model field of a product; the foreign key renders as the category's primary key. */
  function ProductAttribute(p: Product, f: FieldName): Option<Value>
  {
    match f
    case IdField => Some(IntValue(p.id))
    case NameField => Some(TextValue(p.name))
    case DateCreatedField => Some(TimeValue(p.dateCreated))
    case DateUpdatedField => Some(TimeValue(p.dateUpdated))
    case ActiveField => Some(BoolValue(p.active))
    case CategoryField => Some(IntValue(p.category))
    case _ => None
  }

  /** Every model field of an article; the foreign key renders as the product's primary key. */
  function ArticleAttribute(a: Article, f: FieldName): Option<Value>
  {
    match f
    case IdField => Some(IntValue(a.id))
    case NameField => Some(TextValue(a.name))
    case PriceField => Some(DecimalValue(a.price))
    case DateCreatedField => Some(TimeValue(a.dateCreated))
    case DateUpdatedField => Some(TimeValue(a.dateUpdated))
    case ActiveField => Some(BoolValue(a.active))
    case ProductField => Some(IntValue(a.product))
    case _ => None
  }

  // ----------------------------------------------------------- serializers

  function CategorySerializer(c: Category): View
  {
    Project(CategoryFields, CategoryInstance(c))
  }

  function ProductSerializer(p: Product): View
  {
    Project(ProductFields, ProductInstance(p))
  }

  function ArticleSerializer(a: Article): View
  {
    Project(ArticleFields, ArticleInstance(a))
  }

  // ---------------------------------------------------------------- shapes

  /** The JSON object keys of a representation, in order. */
  function JsonKeys(v: View): (ks: seq<string>)
    ensures |ks| == |v|
    ensures forall i :: 0 <= i < |v| ==> ks[i] == Key(v[i].0)
  {
    if v == [] then [] else [Key(v[0].0)] + JsonKeys(v[1..])
  }

  /**
   * A category renders as exactly id, name, date_created, date_updated, in
   * that order, each carrying the category's own value.
   */
  lemma CategoryShape(c: Category)
    ensures CategorySerializer(c) == [
      (IdField, IntValue(c.id)),
      (NameField, TextValue(c.name)),
      (DateCreatedField, TimeValue(c.dateCreated)),
      (DateUpdatedField, TimeValue(c.dateUpdated))]
    ensures JsonKeys(CategorySerializer(c)) == ["id", "name", "date_created", "date_updated"]
  {
    assert |CategorySerializer(c)| == 4;
  }

  /** The description, the active flag and the products of a category are not part of its representation. */
  lemma CategoryOmits(c: Category)
    ensures DescriptionField !in Keys(CategorySerializer(c))
    ensures ActiveField !in Keys(CategorySerializer(c))
    ensures ProductsField !in Keys(CategorySerializer(c))
  {
  }

  /**
   * A product renders as exactly id, name, date_created, date_updated,
   * category, where category is the owning category's primary key.
   */
  lemma ProductShape(p: Product)
    ensures ProductSerializer(p) == [
      (IdField, IntValue(p.id)),
      (NameField, TextValue(p.name)),
      (DateCreatedField, TimeValue(p.dateCreated)),
      (DateUpdatedField, TimeValue(p.dateUpdated)),
      (CategoryField, IntValue(p.category))]
    ensures JsonKeys(ProductSerializer(p)) == ["id", "name", "date_created", "date_updated", "category"]
  {
    assert |ProductSerializer(p)| == 5;
  }

  /**
   * An article renders as exactly id, name, price, date_created,
   * date_updated, product, where product is the owning product's primary key.
   */
  lemma ArticleShape(a: Article)
    ensures ArticleSerializer(a) == [
      (IdField, IntValue(a.id)),
      (NameField, TextValue(a.name)),
      (PriceField, DecimalValue(a.price)),
      (DateCreatedField, TimeValue(a.dateCreated)),
      (DateUpdatedField, TimeValue(a.dateUpdated)),
      (ProductField, IntValue(a.product))]
    ensures JsonKeys(ArticleSerializer(a)) == ["id", "name", "price", "date_created", "date_updated", "product"]
  {
    assert |ArticleSerializer(a)| == 6;
  }

  // ------------------------------------------------- the active flag is hidden

  /** Two categories that differ only in `active` have the same representation. */
  lemma CategoryHidesActive(c: Category, b: bool)
    ensures CategorySerializer(c.(active := b)) == CategorySerializer(c)
  {
    var changed := CategoryInstance(c.(active := b));
    assert forall f :: f in CategoryFields ==> Attribute(changed, f).Some? && Attribute(changed, f) == Attribute(CategoryInstance(c), f);
    ProjectAgree(CategoryFields, changed, CategoryInstance(c));
  }

  /** Two products that differ only in `active` have the same representation. */
  lemma ProductHidesActive(p: Product, b: bool)
    ensures ProductSerializer(p.(active := b)) == ProductSerializer(p)
  {
    var changed := ProductInstance(p.(active := b));
    assert forall f :: f in ProductFields ==> Attribute(changed, f).Some? && Attribute(changed, f) == Attribute(ProductInstance(p), f);
    ProjectAgree(ProductFields, changed, ProductInstance(p));
  }

  /** Two articles that differ only in `active` have the same representation. */
  lemma ArticleHidesActive(a: Article, b: bool)
    ensures ArticleSerializer(a.(active := b)) == ArticleSerializer(a)
  {
    var changed := ArticleInstance(a.(active := b));
    assert forall f :: f in ArticleFields ==> Attribute(changed, f).Some? && Attribute(changed, f) == Attribute(ArticleInstance(a), f);
    ProjectAgree(ArticleFields, changed, ArticleInstance(a));
  }

  /** A category's description never reaches its representation. */
  lemma CategoryHidesDescription(c: Category, d: string)
    ensures CategorySerializer(c.(description := d)) == CategorySerializer(c)
  {
    var changed := CategoryInstance(c.(description := d));
    assert forall f :: f in CategoryFields ==> Attribute(changed, f).Some? && Attribute(changed, f) == Attribute(CategoryInstance(c), f);
    ProjectAgree(CategoryFields, changed, CategoryInstance(c));
  }
}
