/** `ProductService`: products, owned through the category they belong to. */
module ProductServices {
  import opened Outcomes
  import opened Tables
  import opened Text
  import opened Paging
  import opened Selection
  import opened QueryValues
  import opened ProductFilterDto

  const CategoryNotFound := "Kategoriya topilmadi"
  const CategoryNotYours := "Bu kategoriya sizga tegishli emas"
  const ProductNotFound := "Mahsulot topilmadi"
  const ProductNotYours := "Bu mahsulot sizga tegishli emas"
  const NewCategoryNotFound := "Yangi kategoriya topilmadi"
  const NewCategoryNotYours := "Yangi kategoriya sizga tegishli emas"
  const ProductHasOrders := "Bu mahsulotga bog‘langan buyurtmalar mavjud, avval ularni o‘chirish kerak"
  const ProductRemoved := "Mahsulot muvaffaqiyatli o‘chirildi"

  /** `category: {select: {id, name}}`. */
  datatype CategoryRef = CategoryRef(id: Id, name: string)

  /** The product fields every product query selects, with its category. */
  datatype ProductView = ProductView(
    id: Id, name: string, description: string, color: string, image: string, price: real, category: CategoryRef)

  datatype ProductPage = ProductPage(data: seq<ProductView>, meta: PageMeta)

  /** `CreateProductDto`, with the price as the value of its numeric text. */
  datatype CreateProductInput = CreateProductInput(
    name: string, description: string, color: string, image: string, price: real, categoryId: Id)

  /** `UpdateProductDto`: every field may be left out. */
  datatype UpdateProductInput = UpdateProductInput(
    name: Option<string>, description: Option<string>, color: Option<string>, image: Option<string>,
    price: Option<real>, categoryId: Option<Id>)

  /** The product's category exists and belongs to `sellerId`: the test `category?.sellerId !== sellerId`
      fails exactly when this does not hold. */
  predicate OwnedProduct(products: map<Id, Product>, categories: map<Id, Category>, id: Id, sellerId: Id)
    requires id in products
  {
    OwnedCategory(categories, products[id].categoryId, sellerId)
  }

  function View(id: Id, p: Product, categories: map<Id, Category>): ProductView
    requires p.categoryId in categories
  {
    ProductView(id, p.name, p.description, p.color, p.image, p.price,
                CategoryRef(p.categoryId, categories[p.categoryId].name))
  }

  /** Applies an `update` body: a supplied field replaces the old value, an omitted one keeps it. */
  function Patched(p: Product, dto: UpdateProductInput): Product {
    Product(
      if dto.name.Some? then dto.name.value else p.name,
      if dto.description.Some? then dto.description.value else p.description,
      if dto.color.Some? then dto.color.value else p.color,
      if dto.image.Some? then dto.image.value else p.image,
      if dto.price.Some? then dto.price.value else p.price,
      if dto.categoryId.Some? then dto.categoryId.value else p.categoryId)
  }

  /** What the caller is promised to see in the listing: products whose category is theirs and that meet
      every filter given: name and colour contain the text (ignoring case), the price lies within the
      bounds (inclusive), the category is the one named. */
  predicate Listed(p: Product, categories: map<Id, Category>, sellerId: Id, f: ProductFilter)
    requires ValidProductFilter(f)
  {
    && OwnedCategory(categories, p.categoryId, sellerId)
    && (Given(f.name) ==> ContainsInsensitive(p.name, f.name.value))
    && (Given(f.color) ==> ContainsInsensitive(p.color, f.color.value))
    && (Given(f.minPrice) ==> NumericValue(f.minPrice.value) <= p.price)
    && (Given(f.maxPrice) ==> p.price <= NumericValue(f.maxPrice.value))
    && (Given(f.categoryId) ==> p.categoryId == f.categoryId.value)
  }

  function ListedIn(products: map<Id, Product>, categories: map<Id, Category>, sellerId: Id, f: ProductFilter)
    : Id -> bool
    requires ValidProductFilter(f)
  {
    id => id in products && Listed(products[id], categories, sellerId, f)
  }

  /** `{gte, lte}` on the price column. */
  datatype PriceRange = PriceRange(gte: Option<real>, lte: Option<real>)

  /** The `where` object of `findAll`, and what the database does with it. */
  datatype ProductWhere = ProductWhere(
    sellerId: Id, name: Option<string>, color: Option<string>, price: Option<PriceRange>, categoryId: Option<Id>)

  predicate WhereMatches(w: ProductWhere, p: Product, categories: map<Id, Category>) {
    && OwnedCategory(categories, p.categoryId, w.sellerId)
    && (w.name.Some? ==> ContainsInsensitive(p.name, w.name.value))
    && (w.color.Some? ==> ContainsInsensitive(p.color, w.color.value))
    && (w.price.Some? && w.price.value.gte.Some? ==> w.price.value.gte.value <= p.price)
    && (w.price.Some? && w.price.value.lte.Some? ==> p.price <= w.price.value.lte.value)
    && (w.categoryId.Some? ==> p.categoryId == w.categoryId.value)
  }

  function RowsMatching(products: map<Id, Product>, categories: map<Id, Category>, w: ProductWhere): Id -> bool {
    id => id in products && WhereMatches(w, products[id], categories)
  }

  function ListViews(ids: seq<Id>, products: map<Id, Product>, categories: map<Id, Category>)
    : (r: seq<ProductView>)
    requires forall i :: 0 <= i < |ids| ==> ids[i] in products && products[ids[i]].categoryId in categories
    ensures |r| == |ids|
    ensures forall i :: 0 <= i < |ids| ==> r[i] == View(ids[i], products[ids[i]], categories)
  {
    if ids == [] then [] else [View(ids[0], products[ids[0]], categories)] + ListViews(ids[1..], products, categories)
  }

  /** The `where` object `findAll` builds: each given filter sets its key; the two price bounds end up in
      one range. */
  predicate BuiltFrom(w: ProductWhere, sellerId: Id, f: ProductFilter)
    requires ValidProductFilter(f)
  {
    && w.sellerId == sellerId
    && w.name == (if Given(f.name) then f.name else None)
    && w.color == (if Given(f.color) then f.color else None)
    && w.categoryId == (if Given(f.categoryId) then f.categoryId else None)
    && w.price == (if !Given(f.minPrice) && !Given(f.maxPrice) then None
                   else Some(PriceRange(
                          if Given(f.minPrice) then Some(NumericValue(f.minPrice.value)) else None,
                          if Given(f.maxPrice) then Some(NumericValue(f.maxPrice.value)) else None)))
  }

  /** The database, given that `where`, selects exactly the rows the caller is promised. */
  lemma WhereAgrees(order: seq<Id>, products: map<Id, Product>, categories: map<Id, Category>,
                    w: ProductWhere, sellerId: Id, f: ProductFilter)
    requires ValidProductFilter(f) && BuiltFrom(w, sellerId, f)
    ensures Keep(order, RowsMatching(products, categories, w)) == Keep(order, ListedIn(products, categories, sellerId, f))
  {
    forall id | id in order
      ensures RowsMatching(products, categories, w)(id) == ListedIn(products, categories, sellerId, f)(id)
    {
      if id in products {
        assert WhereMatches(w, products[id], categories) == Listed(products[id], categories, sellerId, f);
      }
    }
    KeepAgreeing(order, RowsMatching(products, categories, w), ListedIn(products, categories, sellerId, f));
  }

  /** The listed rows are rows of the table with their category, and there are as many as matching rows. */
  lemma ListingFacts(order: seq<Id>, products: map<Id, Product>, categories: map<Id, Category>,
                     sellerId: Id, f: ProductFilter)
    requires ValidProductFilter(f) && Enumerates(order, products.Keys)
    ensures var rows := Keep(order, ListedIn(products, categories, sellerId, f));
            && (forall i :: 0 <= i < |rows| ==> rows[i] in products && products[rows[i]].categoryId in categories)
            && |rows| == |set id | id in products && Listed(products[id], categories, sellerId, f)|
  {
    var listed := ListedIn(products, categories, sellerId, f);
    var rows := Keep(order, listed);
    CountKept(order, products.Keys, listed);
    assert (set id | id in products.Keys && listed(id))
        == (set id | id in products && Listed(products[id], categories, sellerId, f));
    forall i | 0 <= i < |rows|
      ensures rows[i] in products && products[rows[i]].categoryId in categories
    {
      assert rows[i] in rows;
    }
  }

  /** Builds the `where` object of `findAll` key by key; `where.price` is set by the lower bound and then
      spread-merged with the upper bound. */
  method BuildWhere(sellerId: Id, filters: ProductFilter) returns (where: ProductWhere)
    requires ValidProductFilter(filters)
    ensures BuiltFrom(where, sellerId, filters)
  {
    where := ProductWhere(sellerId, None, None, None, None);
    if Given(filters.name) {
      where := where.(name := filters.name);
    }
    if Given(filters.color) {
      where := where.(color := filters.color);
    }
    if Given(filters.minPrice) {
      where := where.(price := Some(PriceRange(Some(NumericValue(filters.minPrice.value)), None)));
    }
    if Given(filters.maxPrice) {
      var merged := if where.price.Some? then where.price.value else PriceRange(None, None);
      where := where.(price := Some(merged.(lte := Some(NumericValue(filters.maxPrice.value)))));
    }
    if Given(filters.categoryId) {
      where := where.(categoryId := filters.categoryId);
    }
  }

  /** The views of page `page` of the listed rows. */
  function PageViews(rows: seq<Id>, page: int, limit: int, products: map<Id, Product>, categories: map<Id, Category>)
    : (r: seq<ProductView>)
    requires page >= 1 && limit >= 1
    requires forall i :: 0 <= i < |rows| ==> rows[i] in products && products[rows[i]].categoryId in categories
    ensures |r| <= limit
  {
    ListViews(PageOf(rows, page, limit), products, categories)
  }

  class ProductService {
    const db: Database

    constructor (db: Database)
      ensures this.db == db
    {
      this.db := db;
    }

    /** `create`: the category must exist (else not found) and be the caller's (else conflict); then one new
        product is added, so the new product's category is always the caller's. */
    method Create(dto: CreateProductInput, sellerId: Id) returns (r: Result<ProductView>)
      modifies db`products
      ensures dto.categoryId !in db.categories ==>
                r == NotFound(CategoryNotFound) && db.products == old(db.products)
      ensures dto.categoryId in db.categories && db.categories[dto.categoryId].sellerId != sellerId ==>
                r == Conflict(CategoryNotYours) && db.products == old(db.products)
      ensures OwnedCategory(db.categories, dto.categoryId, sellerId) ==>
                var p := Product(dto.name, dto.description, dto.color, dto.image, dto.price, dto.categoryId);
                && r.Ok? && r.value.id !in old(db.products)
                && db.products == old(db.products)[r.value.id := p]
                && r.value == View(r.value.id, p, db.categories)
      ensures r.Ok? ==> r.value.id in db.products && OwnedProduct(db.products, db.categories, r.value.id, sellerId)
      ensures old(db.Valid()) ==> db.Valid()
    {
      if dto.categoryId !in db.categories {
        return NotFound(CategoryNotFound);
      }
      var category := db.categories[dto.categoryId];
      if category.sellerId != sellerId {
        return Conflict(CategoryNotYours);
      }
      ghost var unused := FreshId(db.products.Keys);
      var id :| id !in db.products;
      var p := Product(dto.name, dto.description, dto.color, dto.image, dto.price, dto.categoryId);
      db.products := db.products[id := p];
      r := Ok(View(id, p, db.categories));
    }

    /** `findAll`: the products matching every given filter whose category is the caller's, page `page` of
        size `limit` of them in the order `order` (the rows as `orderBy: {[sortBy]: sortOrder}` sorts them),
        and the count of all matching rows under the same `where`. */
    method FindAll(sellerId: Id, filters: ProductFilter, order: seq<Id>) returns (r: ProductPage)
      requires ValidProductFilter(filters)
      requires Enumerates(order, db.products.Keys)
      ensures var rows := Keep(order, ListedIn(db.products, db.categories, sellerId, filters));
              && (forall i :: 0 <= i < |rows| ==>
                    rows[i] in db.products && db.products[rows[i]].categoryId in db.categories)
              && r.data == PageViews(rows, filters.page, filters.limit, db.products, db.categories)
              && r.meta == Meta(|rows|, filters.page, filters.limit)
      ensures |r.data| <= filters.limit
      ensures r.meta.total ==
                |set id | id in db.products && Listed(db.products[id], db.categories, sellerId, filters)|
    {
      var take := filters.limit;
      var where := BuildWhere(sellerId, filters);
      var rows := Keep(order, RowsMatching(db.products, db.categories, where));
      var total := |rows|;
      WhereAgrees(order, db.products, db.categories, where, sellerId, filters);
      ListingFacts(order, db.products, db.categories, sellerId, filters);
      r := ProductPage(PageViews(rows, filters.page, take, db.products, db.categories),
                       Meta(total, filters.page, filters.limit));
    }

    /** `findOne`: the product is looked up by id alone; a product of another seller is a conflict, not
        "not found". `product.category.id` on a product without its category row throws, so that case is an
        uncaught error. */
    function FindOne(id: Id, sellerId: Id): (r: Result<ProductView>)
      reads db
      ensures id !in db.products ==> r == NotFound(ProductNotFound)
      ensures id in db.products && db.products[id].categoryId !in db.categories ==> r == InternalError(UncaughtError)
      ensures (id in db.products && db.products[id].categoryId in db.categories
               && db.categories[db.products[id].categoryId].sellerId != sellerId) ==> r == Conflict(ProductNotYours)
      ensures id in db.products && OwnedProduct(db.products, db.categories, id, sellerId) ==>
                r == Ok(View(id, db.products[id], db.categories))
      ensures db.Valid() ==> !r.InternalError?
    {
      if id !in db.products then NotFound(ProductNotFound)
      else
        var product := db.products[id];
        if product.categoryId !in db.categories then InternalError(UncaughtError)
        else if db.categories[product.categoryId].sellerId != sellerId then Conflict(ProductNotYours)
        else Ok(View(id, product, db.categories))
    }

    /** `update`: not found, then not the caller's (also when its category row is missing), and only then,
        when a new category is given, that category not found or not the caller's; otherwise only the
        supplied fields of that one product change, and its category is the caller's. */
    method Update(id: Id, dto: UpdateProductInput, sellerId: Id) returns (r: Result<ProductView>)
      requires dto.categoryId != Some("")
      modifies db`products
      ensures id !in old(db.products) ==> r == NotFound(ProductNotFound) && db.products == old(db.products)
      ensures id in old(db.products) && !OwnedProduct(old(db.products), db.categories, id, sellerId) ==>
                r == Conflict(ProductNotYours) && db.products == old(db.products)
      ensures id in old(db.products) && OwnedProduct(old(db.products), db.categories, id, sellerId)
              && dto.categoryId.Some? && dto.categoryId.value !in db.categories ==>
                r == NotFound(NewCategoryNotFound) && db.products == old(db.products)
      ensures id in old(db.products) && OwnedProduct(old(db.products), db.categories, id, sellerId)
              && dto.categoryId.Some? && dto.categoryId.value in db.categories
              && db.categories[dto.categoryId.value].sellerId != sellerId ==>
                r == Conflict(NewCategoryNotYours) && db.products == old(db.products)
      ensures id in old(db.products) && OwnedProduct(old(db.products), db.categories, id, sellerId)
              && (dto.categoryId.Some? ==> OwnedCategory(db.categories, dto.categoryId.value, sellerId)) ==>
                var p := Patched(old(db.products)[id], dto);
                && db.products == old(db.products)[id := p]
                && p.categoryId in db.categories
                && r == Ok(View(id, p, db.categories))
      ensures r.Ok? ==> id in db.products && OwnedProduct(db.products, db.categories, id, sellerId)
      ensures old(db.Valid()) ==> db.Valid()
    {
      if id !in db.products {
        return NotFound(ProductNotFound);
      }
      var product := db.products[id];
      if !(product.categoryId in db.categories && db.categories[product.categoryId].sellerId == sellerId) {
        return Conflict(ProductNotYours);
      }
      if Given(dto.categoryId) {
        if dto.categoryId.value !in db.categories {
          return NotFound(NewCategoryNotFound);
        }
        var newCategory := db.categories[dto.categoryId.value];
        if newCategory.sellerId != sellerId {
          return Conflict(NewCategoryNotYours);
        }
      }
      var p := Patched(product, dto);
      db.products := db.products[id := p];
      r := Ok(View(id, p, db.categories));
    }

    /** `remove`: not found, then not the caller's, then refused while order items reference it; otherwise
        exactly that product is deleted. */
    method Remove(id: Id, sellerId: Id) returns (r: Result<string>)
      modifies db`products
      ensures id !in old(db.products) ==> r == NotFound(ProductNotFound) && db.products == old(db.products)
      ensures id in old(db.products) && !OwnedProduct(old(db.products), db.categories, id, sellerId) ==>
                r == Conflict(ProductNotYours) && db.products == old(db.products)
      ensures id in old(db.products) && OwnedProduct(old(db.products), db.categories, id, sellerId)
              && HasOrderItems(db.orderItems, id) ==>
                r == Conflict(ProductHasOrders) && db.products == old(db.products)
      ensures id in old(db.products) && OwnedProduct(old(db.products), db.categories, id, sellerId)
              && !HasOrderItems(db.orderItems, id) ==>
                r == Ok(ProductRemoved) && db.products == old(db.products) - {id}
      ensures old(db.Valid()) ==> db.Valid()
    {
      if id !in db.products {
        return NotFound(ProductNotFound);
      }
      var product := db.products[id];
      if !(product.categoryId in db.categories && db.categories[product.categoryId].sellerId == sellerId) {
        return Conflict(ProductNotYours);
      }
      if HasOrderItems(db.orderItems, id) {
        return Conflict(ProductHasOrders);
      }
      db.products := db.products - {id};
      r := Ok(ProductRemoved);
    }
  }
}
