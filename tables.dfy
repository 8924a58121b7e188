/** The four tables the services read and write, their records, and the integrity the services keep. */
module Tables {

  /** Row identifiers (uuid strings generated by the database). */
  type Id = string

  const Active := "ACTIVE"

  /** The registration fields stored with a seller besides phone and password. */
  datatype Profile = Profile(
    firstName: string, lastName: string, nameOfStore: string, dateBirth: string,
    image: string, logo: string, paymentTime: string, botToken: string)

  datatype Seller = Seller(phone: string, password: string, profile: Profile, isActive: string)

  datatype Category = Category(name: string, image: string, sellerId: Id)

  /** `price` is the numeric value of the decimal column. */
  datatype Product = Product(
    name: string, description: string, color: string, image: string, price: real, categoryId: Id)

  /** Order items matter here only through the product they reference. */
  datatype OrderItem = OrderItem(productId: Id)

  predicate PhoneTaken(sellers: map<Id, Seller>, phone: string) {
    exists id :: id in sellers && sellers[id].phone == phone
  }

  /** `findFirst({where: {name, sellerId}})` finds a row. */
  predicate NameTaken(categories: map<Id, Category>, name: string, sellerId: Id) {
    exists id :: id in categories && categories[id].name == name && categories[id].sellerId == sellerId
  }

  /** `findFirst({where: {id, sellerId}})` finds a row. */
  predicate OwnedCategory(categories: map<Id, Category>, id: Id, sellerId: Id) {
    id in categories && categories[id].sellerId == sellerId
  }

  predicate HasProducts(products: map<Id, Product>, categoryId: Id) {
    exists pid :: pid in products && products[pid].categoryId == categoryId
  }

  predicate HasOrderItems(orderItems: map<Id, OrderItem>, productId: Id) {
    exists oid :: oid in orderItems && orderItems[oid].productId == productId
  }

  predicate PhonesUnique(sellers: map<Id, Seller>) {
    forall a, b :: a in sellers && b in sellers && sellers[a].phone == sellers[b].phone ==> a == b
  }

  predicate CategoryNamesUnique(categories: map<Id, Category>) {
    forall a, b ::
      (a in categories && b in categories && categories[a].name == categories[b].name
       && categories[a].sellerId == categories[b].sellerId) ==> a == b
  }

  predicate ProductsHaveCategories(products: map<Id, Product>, categories: map<Id, Category>) {
    forall pid :: pid in products ==> products[pid].categoryId in categories
  }

  predicate OrderItemsHaveProducts(orderItems: map<Id, OrderItem>, products: map<Id, Product>) {
    forall oid :: oid in orderItems ==> orderItems[oid].productId in products
  }

  /** The constraints every service operation keeps: unique phones, category names unique per seller,
      and no product or order item pointing at a missing row. */
  ghost predicate Consistent(sellers: map<Id, Seller>, categories: map<Id, Category>,
                             products: map<Id, Product>, orderItems: map<Id, OrderItem>) {
    && PhonesUnique(sellers)
    && CategoryNamesUnique(categories)
    && ProductsHaveCategories(products, categories)
    && OrderItemsHaveProducts(orderItems, products)
  }

  /** A length no key reaches. */
  ghost function LongerThanAll(keys: set<Id>): (n: nat)
    ensures forall k :: k in keys ==> |k| < n
  {
    if keys == {} then 0
    else
      var k :| k in keys;
      var rest := LongerThanAll(keys - {k});
      if |k| < rest then rest else |k| + 1
  }

  /** There is always an identifier not yet used: the database can generate a new one. */
  ghost function FreshId(keys: set<Id>): (id: Id)
    ensures id !in keys
  {
    seq(LongerThanAll(keys), _ => 'x')
  }

  /** The database: one map per table. */
  class Database {
    var sellers: map<Id, Seller>
    var categories: map<Id, Category>
    var products: map<Id, Product>
    var orderItems: map<Id, OrderItem>

    ghost predicate Valid()
      reads this
    {
      Consistent(sellers, categories, products, orderItems)
    }

    constructor ()
      ensures Valid()
      ensures sellers == map[] && categories == map[] && products == map[] && orderItems == map[]
    {
      sellers, categories, products, orderItems := map[], map[], map[], map[];
    }

    /** Inserts a seller row under a key not yet in use and returns that key. */
    method InsertSeller(seller: Seller) returns (id: Id)
      modifies this`sellers
      ensures id !in old(sellers) && sellers == old(sellers)[id := seller]
    {
      ghost var unused := FreshId(sellers.Keys);
      id :| id !in sellers;
      sellers := sellers[id := seller];
    }
  }
}
