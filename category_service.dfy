/** `CategoryService`: categories scoped to the seller making the request. */
module CategoryServices {
  import opened Outcomes
  import opened Tables
  import opened Text
  import opened Paging
  import opened Selection
  import opened CategoryFilterDto

  const NameInUse := "Bu nomdagi kategoriya allaqachon mavjud"
  const CategoryNotFound := "Kategoriya topilmadi"
  const CategoryHasProducts := "Bu kategoriyada mahsulotlar mavjud, avval ularni o‘chirish kerak"
  const CategoryRemoved := "Kategoriya muvaffaqiyatli o‘chirildi"

  /** `select {id, name, image, sellerId}` of `create`. */
  datatype CategoryView = CategoryView(id: Id, name: string, image: string, sellerId: Id)

  /** `select {id, name, image}` of `update`. */
  datatype CategorySummary = CategorySummary(id: Id, name: string, image: string)

  /** A product as nested in a listed category: `{id, name, price}`. */
  datatype ProductBrief = ProductBrief(id: Id, name: string, price: real)

  datatype CategoryListItem = CategoryListItem(id: Id, name: string, image: string, products: set<ProductBrief>)

  /** A category with `include: {products: true}`. */
  datatype CategoryDetail = CategoryDetail(
    id: Id, name: string, image: string, sellerId: Id, products: map<Id, Product>)

  datatype CategoryPage = CategoryPage(data: seq<CategoryListItem>, meta: PageMeta)

  /** `UpdateCategoryDto`: either field may be left out. */
  datatype UpdateCategoryInput = UpdateCategoryInput(name: Option<string>, image: Option<string>)

  /** What the caller is promised to see in the listing: their own categories, and only those whose name
      contains the name filter (ignoring case) when a non-empty one is given. */
  predicate Listed(c: Category, sellerId: Id, name: Option<string>) {
    c.sellerId == sellerId && (Given(name) ==> ContainsInsensitive(c.name, name.value))
  }

  function ListedIn(categories: map<Id, Category>, sellerId: Id, name: Option<string>): Id -> bool {
    id => id in categories && Listed(categories[id], sellerId, name)
  }

  /** The listed rows are rows of the table, and there are as many as matching rows. */
  lemma ListingFacts(order: seq<Id>, categories: map<Id, Category>, sellerId: Id, name: Option<string>)
    requires Enumerates(order, categories.Keys)
    ensures var rows := Keep(order, ListedIn(categories, sellerId, name));
            && (forall i :: 0 <= i < |rows| ==> rows[i] in categories)
            && |rows| == |set id | id in categories && Listed(categories[id], sellerId, name)|
  {
    var listed := ListedIn(categories, sellerId, name);
    var rows := Keep(order, listed);
    CountKept(order, categories.Keys, listed);
    assert (set id | id in categories.Keys && listed(id))
        == (set id | id in categories && Listed(categories[id], sellerId, name));
    forall i | 0 <= i < |rows|
      ensures rows[i] in categories
    {
      assert rows[i] in rows;
    }
  }

  /** The `where` object of `findAll`, and what the database does with it. */
  datatype CategoryWhere = CategoryWhere(sellerId: Id, name: Option<string>)

  predicate WhereMatches(w: CategoryWhere, c: Category) {
    c.sellerId == w.sellerId && (w.name.Some? ==> ContainsInsensitive(c.name, w.name.value))
  }

  function RowsMatching(categories: map<Id, Category>, w: CategoryWhere): Id -> bool {
    id => id in categories && WhereMatches(w, categories[id])
  }

  /** The products of a category, keyed by id. */
  function ProductsOf(products: map<Id, Product>, categoryId: Id): (r: map<Id, Product>)
    ensures forall pid :: pid in r <==> pid in products && products[pid].categoryId == categoryId
    ensures forall pid :: pid in r ==> r[pid] == products[pid]
  {
    map pid | pid in products && products[pid].categoryId == categoryId :: products[pid]
  }

  /** The products `findOne` includes are what blocks `remove`: a category has products exactly when the
      included map is not empty. */
  lemma IncludedIffBlocked(products: map<Id, Product>, categoryId: Id)
    ensures HasProducts(products, categoryId) <==> ProductsOf(products, categoryId) != map[]
  {
    if HasProducts(products, categoryId) {
      var pid :| pid in products && products[pid].categoryId == categoryId;
      assert pid in ProductsOf(products, categoryId);
    }
  }

  function ListItem(id: Id, categories: map<Id, Category>, products: map<Id, Product>): CategoryListItem
    requires id in categories
  {
    var c := categories[id];
    CategoryListItem(id, c.name, c.image,
      set pid | pid in products && products[pid].categoryId == id
        :: ProductBrief(pid, products[pid].name, products[pid].price))
  }

  /** The listed rows in the shape `findMany` selects. */
  function ListItems(ids: seq<Id>, categories: map<Id, Category>, products: map<Id, Product>)
    : (r: seq<CategoryListItem>)
    requires forall i :: 0 <= i < |ids| ==> ids[i] in categories
    ensures |r| == |ids|
    ensures forall i :: 0 <= i < |ids| ==> r[i] == ListItem(ids[i], categories, products)
  {
    if ids == [] then [] else [ListItem(ids[0], categories, products)] + ListItems(ids[1..], categories, products)
  }

  /** Applies an `update` body: a supplied field replaces the old value, an omitted one keeps it. */
  function Updated(c: Category, dto: UpdateCategoryInput): Category {
    Category(
      if dto.name.Some? then dto.name.value else c.name,
      if dto.image.Some? then dto.image.value else c.image,
      c.sellerId)
  }

  /** The rename check runs only for a non-empty name that differs from the current one. */
  predicate Renames(c: Category, dto: UpdateCategoryInput) {
    Given(dto.name) && dto.name.value != c.name
  }

  /** The items of page `page` of the listed rows. */
  function PageItems(rows: seq<Id>, page: int, limit: int, categories: map<Id, Category>, products: map<Id, Product>)
    : (r: seq<CategoryListItem>)
    requires page >= 1 && limit >= 1
    requires forall i :: 0 <= i < |rows| ==> rows[i] in categories
    ensures |r| <= limit
  {
    ListItems(PageOf(rows, page, limit), categories, products)
  }

  class CategoryService {
    const db: Database

    constructor (db: Database)
      ensures this.db == db
    {
      this.db := db;
    }

    /** `create`: a seller cannot have two categories of the same name; another seller's does not matter. */
    method Create(name: string, image: string, sellerId: Id) returns (r: Result<CategoryView>)
      modifies db`categories
      ensures NameTaken(old(db.categories), name, sellerId) ==>
                r == Conflict(NameInUse) && db.categories == old(db.categories)
      ensures !NameTaken(old(db.categories), name, sellerId) ==>
                && r.Ok? && r.value.id !in old(db.categories)
                && r.value == CategoryView(r.value.id, name, image, sellerId)
                && db.categories == old(db.categories)[r.value.id := Category(name, image, sellerId)]
      ensures old(db.Valid()) ==> db.Valid()
    {
      if NameTaken(db.categories, name, sellerId) {
        return Conflict(NameInUse);
      }
      ghost var unused := FreshId(db.categories.Keys);
      var id :| id !in db.categories;
      db.categories := db.categories[id := Category(name, image, sellerId)];
      r := Ok(CategoryView(id, name, image, sellerId));
    }

    /** `findAll`: the caller's categories matching the name filter, page `page` of size `limit` of them in
        the order `order` (the rows as `orderBy: {[sortBy]: sortOrder}` sorts them), and the count of all
        matching rows. */
    method FindAll(sellerId: Id, filters: CategoryFilter, order: seq<Id>) returns (r: CategoryPage)
      requires ValidCategoryFilter(filters)
      requires Enumerates(order, db.categories.Keys)
      ensures var rows := Keep(order, ListedIn(db.categories, sellerId, filters.name));
              && (forall i :: 0 <= i < |rows| ==> rows[i] in db.categories)
              && r.data == PageItems(rows, filters.page, filters.limit, db.categories, db.products)
              && r.meta == Meta(|rows|, filters.page, filters.limit)
      ensures |r.data| <= filters.limit
      ensures r.meta.total == |set id | id in db.categories && Listed(db.categories[id], sellerId, filters.name)|
    {
      var take := filters.limit;
      var where := CategoryWhere(sellerId, None);
      if Given(filters.name) {
        where := where.(name := filters.name);
      }
      var rows := Keep(order, RowsMatching(db.categories, where));
      var total := |rows|;

      KeepAgreeing(order, RowsMatching(db.categories, where), ListedIn(db.categories, sellerId, filters.name));
      ListingFacts(order, db.categories, sellerId, filters.name);
      r := CategoryPage(PageItems(rows, filters.page, take, db.categories, db.products),
                        Meta(total, filters.page, filters.limit));
    }

    /** `findOne`: ownership is part of the lookup, so another seller's category is simply not found. */
    function FindOne(id: Id, sellerId: Id): (r: Result<CategoryDetail>)
      reads db
      ensures r.NotFound? <==> !OwnedCategory(db.categories, id, sellerId)
      ensures r.NotFound? ==> r.msg == CategoryNotFound
      ensures r.Ok? ==> r.value.id == id && r.value.sellerId == sellerId
      ensures r.Ok? ==> r.value.name == db.categories[id].name && r.value.image == db.categories[id].image
      ensures r.Ok? ==> forall pid :: pid in r.value.products <==>
                          pid in db.products && db.products[pid].categoryId == id
      ensures r.Ok? ==> forall pid :: pid in r.value.products ==> r.value.products[pid] == db.products[pid]
      ensures r.Ok? || r.NotFound?
    {
      if !OwnedCategory(db.categories, id, sellerId) then NotFound(CategoryNotFound)
      else
        var c := db.categories[id];
        Ok(CategoryDetail(id, c.name, c.image, c.sellerId, ProductsOf(db.products, id)))
    }

    /** `update`: not found unless the caller owns it; a rename to a name the caller already uses conflicts,
        re-sending the current name does not; otherwise only the supplied fields of that one row change. */
    method Update(id: Id, dto: UpdateCategoryInput, sellerId: Id) returns (r: Result<CategorySummary>)
      modifies db`categories
      ensures !OwnedCategory(old(db.categories), id, sellerId) ==>
                r == NotFound(CategoryNotFound) && db.categories == old(db.categories)
      ensures OwnedCategory(old(db.categories), id, sellerId) && Renames(old(db.categories)[id], dto)
              && NameTaken(old(db.categories), dto.name.value, sellerId) ==>
                r == Conflict(NameInUse) && db.categories == old(db.categories)
      ensures OwnedCategory(old(db.categories), id, sellerId)
              && !(Renames(old(db.categories)[id], dto) && NameTaken(old(db.categories), dto.name.value, sellerId)) ==>
                var c := Updated(old(db.categories)[id], dto);
                && r == Ok(CategorySummary(id, c.name, c.image))
                && db.categories == old(db.categories)[id := c]
      ensures old(db.Valid()) && dto.name != Some("") ==> db.Valid()
    {
      if !OwnedCategory(db.categories, id, sellerId) {
        return NotFound(CategoryNotFound);
      }
      var category := db.categories[id];
      if Given(dto.name) && dto.name.value != category.name {
        if NameTaken(db.categories, dto.name.value, sellerId) {
          return Conflict(NameInUse);
        }
      }
      var c := Updated(category, dto);
      db.categories := db.categories[id := c];
      r := Ok(CategorySummary(id, c.name, c.image));
    }

    /** `remove`: not found unless the caller owns it; refused while any product is in it; otherwise exactly
        that row is deleted. */
    method Remove(id: Id, sellerId: Id) returns (r: Result<string>)
      modifies db`categories
      ensures !OwnedCategory(old(db.categories), id, sellerId) ==>
                r == NotFound(CategoryNotFound) && db.categories == old(db.categories)
      ensures OwnedCategory(old(db.categories), id, sellerId) && HasProducts(db.products, id) ==>
                r == Conflict(CategoryHasProducts) && db.categories == old(db.categories)
      ensures OwnedCategory(old(db.categories), id, sellerId) && !HasProducts(db.products, id) ==>
                r == Ok(CategoryRemoved) && db.categories == old(db.categories) - {id}
      ensures old(db.Valid()) ==> db.Valid()
    {
      if !OwnedCategory(db.categories, id, sellerId) {
        return NotFound(CategoryNotFound);
      }
      if HasProducts(db.products, id) {
        return Conflict(CategoryHasProducts);
      }
      db.categories := db.categories - {id};
      r := Ok(CategoryRemoved);
    }
  }
}
