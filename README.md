# Seller back-office: categories, products and seller authentication

This project is a Dafny model of the service layer of a NestJS + Prisma back office for flower sellers. The
layer has four parts:

- **AuthService** registers a seller: the phone must be unused, the password is hashed with bcrypt, and the row
  is stored as `ACTIVE`. It also logs a seller in by phone and password and issues a ten-hour JWT carrying
  `{id, role: 'seller'}`.
- **JwtStrategy.validate** accepts a verified token's payload only when the seller row exists and is active.
- **CategoryService** creates, lists, reads, updates and deletes the caller's own categories. Names are unique
  per seller, and a category that still has products cannot be deleted.
- **ProductService** does the same for products. A product belongs to a seller through its category. The
  checks run in a fixed order: existence, ownership, the target category of a re-parenting, then order items.

The listings are driven by two query records, `CategoryFilterDto` and `ProductFilterDto`, with defaults page 1,
limit 10, sort by `name`, ascending. The listings filter by case-insensitive substring, paginate with
`skip = (page-1)*limit` and `take = limit`, and report
`{total, page, limit, totalPages = ceil(total/limit)}`.

Modules, one per file:

| file | module | what it holds |
|---|---|---|
| `outcomes.dfy` | `Outcomes` | `Option` and `Result`. `Result` is the Nest exceptions a service throws (404, 409, 401, 500), each with its message. |
| `tables.dfy` | `Tables` | The rows, the table constraints, and the `Database` class whose four tables are the maps the services update in place. |
| `text.dfy` | `Text` | `contains` with `mode: 'insensitive'`. |
| `paging.dfy` | `Paging` | Skip, take, page slicing, `totalPages`, and the partition of the rows into pages. |
| `selection.dfy` | `Selection` | What `findMany({where})` and `count({where})` select from an ordered enumeration of a table. |
| `query_values.dfy` | `QueryValues` | `parseInt(value, 10)`, validator's numeric-string check, and the `SortOrder` enumeration. |
| `category_filter.dfy`, `product_filter.dfy` | `CategoryFilterDto`, `ProductFilterDto` | Transformation and validation of the two query records. |
| `category_service.dfy`, `product_service.dfy`, `auth_service.dfy`, `jwt_strategy.dfy` | `CategoryServices`, `ProductServices`, `AuthServices`, `JwtStrategy` | The services. |

The services are classes over one shared `Database`. A mutating operation is a method that names only the table
it may write (`modifies db`categories`). It states the outcome and the new table for every branch: each error
leaves the table unchanged, and success gives the exact new map. It also keeps `Database.Valid()`, which holds:

- phones are unique;
- category names are unique per seller;
- every product's category exists;
- every order item's product exists.

Listings are specified twice. The model builds the `where` object step by step, as the source does, and proves
that the rows the database selects with it are exactly the rows the caller is promised (`Listed`). The page is
then the `PageOf` slice of those rows, and the count is the number of promised rows.

## Model

| member | source | states |
|---|---|---|
| Text.Lower | src/modules/category/category.service.ts:46-51 | the lower-cased string has the same length and is lower-cased at every position |
| Text.ContainsIffOccurs | src/modules/category/category.service.ts:46-51 | the recursive `contains` holds exactly when the needle occurs at some index of the value (both directions) |
| Text.CaseBlind | src/modules/product/product.service.ts:63-75 | the insensitive match gives the same answer if either side is lower-cased first |
| Paging.CeilDiv | src/modules/category/category.service.ts:82 | the least page count that holds `n` rows: `q*d >= n` and `(q-1)*d < n` |
| Paging.Meta | src/modules/product/product.service.ts:121-128 | `meta` echoes total, page and limit; `totalPages` is the ceiling of total/limit |
| Paging.PageOf | src/modules/category/category.service.ts:39-40 | the page holds at most `limit` rows, exactly `min(limit, n-skip)` of them (none once skip is past the end), and row `k` of the page is row `skip+k` |
| Paging.FirstPagesArePrefix | src/modules/product/product.service.ts:53-54 | pages 1..n laid end to end are the first `n*limit` rows |
| Paging.PagesPartition | src/modules/category/category.service.ts:39-83 | for one fixed order of the matching rows, pages 1..totalPages give back every row once and in that order, so their sizes add up to `total` |
| Paging.PagesBeforeLastAreFull | src/modules/product/product.service.ts:98-101 | every page before `totalPages` has exactly `limit` rows |
| Paging.PageBeyondLastIsEmpty | src/modules/category/category.service.ts:55-58 | a page past `totalPages` is empty |
| Selection.Keep | src/modules/category/category.service.ts:53-58 | the selected rows are exactly the rows of the enumeration that satisfy the `where`, no more than it holds |
| Selection.KeepAppend | src/modules/product/product.service.ts:98-104 | selecting from two enumerations laid end to end selects from the first, then from the second, so the kept rows keep the enumeration's order |
| Selection.KeepAgreeing | src/modules/product/product.service.ts:95-101 | two conditions that agree on every row select the same rows in the same order |
| Selection.DistinctCard | src/modules/category/category.service.ts:53 | a list without repetitions has as many entries as its set of entries |
| Selection.CountKept | src/modules/product/product.service.ts:95 | `count({where})` over an enumeration of the table equals the number of keys that satisfy the `where` |
| QueryValues.ParseSortOrder | src/modules/category/dto/category-filter.dto.ts:5-8 | only `asc` and `desc` are accepted (both directions), and each reads back as its own text |
| QueryValues.ReadsAsParsed | src/modules/category/dto/category-filter.dto.ts:26 | `parseInt(s, 10)` reads every text made of white space, an optional sign, a non-empty digit run and a rest that does not continue it, with the signed value of that run |
| QueryValues.ParsedReadsAs | src/modules/product/dto/product-filter.dto.ts:62 | conversely, whatever `parseInt` reads (not NaN) has exactly that layout, and its number is the signed value of the digit run |
| QueryValues.SkippedIsSpace | src/modules/product/dto/product-filter.dto.ts:73 | what `parseInt` skips before the number is white space |
| QueryValues.ParseNatText | src/modules/category/dto/category-filter.dto.ts:26 | `parseInt(s, 10)` reads back the decimal text of every natural number |
| QueryValues.ParseCount | src/modules/category/dto/category-filter.dto.ts:25-29 | an absent field gives the default; a present one is accepted exactly when `parseInt` gives an integer of at least 1, and then that integer |
| QueryValues.CountOfText | src/modules/product/dto/product-filter.dto.ts:72-76 | every positive decimal count is accepted with its own value |
| QueryValues.NumberStringOfNat | src/modules/product/dto/product-filter.dto.ts:34-45 | a whole number written in decimal passes `@IsNumberString()` and has that value |
| QueryValues.LayoutIsNumber | src/modules/product/dto/product-filter.dto.ts:35 | every text of the form `[+-]?([0-9]*[.])?[0-9]+` passes `@IsNumberString()`, and its value is the signed `whole + fraction/10^digits` |
| QueryValues.NumberLayoutOf | src/modules/product/dto/product-filter.dto.ts:44 | conversely, every text `@IsNumberString()` accepts has that form, with that value |
| CategoryFilterDto.ParseCategoryFilter | src/modules/category/dto/category-filter.dto.ts:10-59 | an accepted filter has page and limit of at least 1; the name passes through; the documented defaults apply (1, 10, `name`, `asc`); a page or limit the query carries becomes its `parseInt` value; a query is accepted exactly when page, limit and sortOrder pass their validators |
| CategoryFilterDto.CategoryFilterRoundTrip | src/modules/category/dto/category-filter.dto.ts:10-59 | every valid filter, written as a query string with page and limit in decimal, is read back as that same filter |
| ProductFilterDto.ParseProductFilter | src/modules/product/dto/product-filter.dto.ts:10-95 | as for categories (a present page or limit becomes its `parseInt` value), and also: name, colour, category id and both price texts pass through; a query is refused when a price bound is not a numeric string |
| ProductFilterDto.ProductFilterRoundTrip | src/modules/product/dto/product-filter.dto.ts:10-95 | every valid filter, written as a query string with page and limit in decimal, is read back as that same filter |
| ProductFilterDto.PriceBoundsOfText | src/modules/product/dto/product-filter.dto.ts:34-45 | whole-number price bounds are accepted with their values |
| Tables.Database.InsertSeller | src/modules/auth/auth.service.ts:50-57 | the row is stored under a key not used before, and the other seller rows are untouched |
| CategoryServices.IncludedIffBlocked | src/modules/category/category.service.ts:137-148 | the products `findOne` includes are non-empty exactly when `remove` refuses the category for still having products |
| CategoryServices.ListingFacts | src/modules/category/category.service.ts:53-58 | every row `findMany({where})` lists is a category of the table, and there are as many as matching categories, which is what `count({where})` returns |
| CategoryServices.ListItems | src/modules/category/category.service.ts:62-73 | one item per listed row, in order, each item being that category with its products |
| CategoryServices.PageItems | src/modules/category/category.service.ts:55-74 | a page of the listing never has more than `limit` items |
| CategoryServices.CategoryService.Create | src/modules/category/category.service.ts:10-34 | a name the seller already uses is a conflict and changes nothing; otherwise exactly one row is added under a new id, another seller's category of that name does not matter, and the table constraints are kept |
| CategoryServices.CategoryService.FindAll | src/modules/category/category.service.ts:36-85 | the data is page `page` of the caller's categories whose name contains the filter, ignoring case (no filter when it is empty or absent); `total` is the number of such categories; the page has at most `limit` items |
| CategoryServices.CategoryService.FindOne | src/modules/category/category.service.ts:87-98 | not found exactly when the category is missing or another seller's; otherwise that row with exactly its products, each product record as the table holds it |
| CategoryServices.CategoryService.Update | src/modules/category/category.service.ts:100-130 | not found unless owned; a conflict exactly when a non-empty name other than the current one is another of the seller's category names; otherwise only the supplied fields of that one row change; the table constraints are kept for a non-empty name |
| CategoryServices.CategoryService.Remove | src/modules/category/category.service.ts:132-155 | not found unless owned; a conflict while any product has this category; otherwise exactly that row is deleted; no product is left without its category |
| ProductServices.ListViews | src/modules/product/product.service.ts:105-118 | one view per listed row, in order, each with its category's id and name |
| ProductServices.BuildWhere | src/modules/product/product.service.ts:57-92 | the `where` built key by key has the seller scope, each non-empty filter, and one price range merging both bounds |
| ProductServices.WhereAgrees | src/modules/product/product.service.ts:57-101 | the rows the database selects with that `where` are exactly the promised ones: the caller's category, name and colour containing the filters ignoring case, price within both bounds inclusive, the category named |
| ProductServices.ListingFacts | src/modules/product/product.service.ts:95-101 | every listed row has its category row, and there are as many listed rows as matching products |
| ProductServices.PageViews | src/modules/product/product.service.ts:98-119 | a page of the listing never has more than `limit` views |
| ProductServices.ProductService.Create | src/modules/product/product.service.ts:11-46 | a missing category is not found and another seller's is a conflict, both leaving the table unchanged; otherwise exactly one product is added, and the new product's category is the caller's |
| ProductServices.ProductService.FindAll | src/modules/product/product.service.ts:49-130 | the data is page `page` of the promised products in the given order; `total` counts every matching product; the page has at most `limit` views |
| ProductServices.ProductService.FindOne | src/modules/product/product.service.ts:133-165 | a missing product is not found; a product whose category is another seller's is a conflict, not "not found"; a product without its category row is an uncaught server error, which cannot happen while the table constraints hold; otherwise its view |
| ProductServices.ProductService.Update | src/modules/product/product.service.ts:168-217 | checks in order: not found, then not the caller's (also when its category row is missing), then the new category missing, then the new category another seller's, each leaving the table unchanged; otherwise only the supplied fields of that product change, its category is the caller's, and no product is left without its category |
| ProductServices.ProductService.Remove | src/modules/product/product.service.ts:220-253 | not found, then not the caller's, then a conflict while order items reference it, each leaving the table unchanged; otherwise exactly that product is deleted and no order item is left dangling |
| AuthServices.LoginDecision | src/modules/auth/auth.service.ts:66-103 | an unknown phone and a wrong password get the same 401 message; success exactly when the password matches and signing succeeds, and then the token signs `{id, 'seller'}` with the access key and `10h`; a throwing `compare`, or a throwing `sign` after a match, is exactly the generic 500, never masking the 401 |
| AuthServices.InsertKeepsPhonesUnique | src/modules/auth/auth.service.ts:31-38 | adding a seller whose phone is unused keeps phones unique |
| AuthServices.InsertKeepsConsistent | src/modules/auth/auth.service.ts:27-64 | registering such a seller keeps every table constraint |
| AuthServices.RegisterThenLogin | src/modules/auth/auth.service.ts:27-96 | right after registering, the new row is the only one with that phone, and login with the same password succeeds with that seller's token |
| AuthServices.AuthService.constructor | src/modules/auth/auth.service.ts:15-25 | the service keeps its database, libraries and a non-empty access key |
| AuthServices.AuthService.Register | src/modules/auth/auth.service.ts:27-64 | a used phone is a conflict, a failed hash or insert is its own 500 message, all three store nothing; success exactly otherwise, adding one active seller with the hashed password under a new id; phones stay unique |
| AuthServices.AuthService.Login | src/modules/auth/auth.service.ts:66-96 | decides as `LoginDecision` for a seller found by that phone (the only one when phones are unique), never writing |
| JwtStrategy.Validate | src/modules/auth/guards/jwt.strategy.ts:21-37 | an unknown id and an inactive seller are refused with their own messages, in that order; accepted exactly otherwise, with the token's id and role |
| JwtStrategy.RegisteredSellerAccepted | src/modules/auth/auth.service.ts:49-58 | a freshly registered seller's token passes `validate` with role `seller` |
| JwtStrategy.InactiveSellerLogsInButIsRefused | src/modules/auth/guards/jwt.strategy.ts:32-34 | login ignores `isActive`: an inactive seller with the right password gets a token that every guarded request then refuses |

Where the documented behaviour and the code differ, the model follows the code. `ProductService.FindOne` looks the
product up together with `category: {select: {id, name}}` and then reads `product.category.id`. A product whose
category row is missing therefore fails, and Nest turns the failure into a 500. That case is not the "not
yours" conflict of `update` and `remove`, which read `category?.sellerId`. Against a database that keeps its foreign
keys the case cannot arise: `FindOne` promises no 500 while `Database.Valid()` holds.

## Left out

- Controllers, module wiring, Swagger decorators and the `jwt-auth` guard. Bearer-token extraction, signature and
  expiry checks belong to passport-jwt; the model starts from the verified payload.
- bcrypt and the JWT signer are function values in `Crypto`. `None` stands for a call that throws. The only
  property assumed of them is that a password matches its own hash (`HashMatches`), and only where a lemma needs it.
- `hash(password, 10)` is a deterministic function of the password. bcrypt draws a fresh salt on every call, so
  two registrations with one password store different hashes; nothing in the model depends on their being equal.
- `process.env.ACCESS_KEY` becomes the constructor's precondition that the key is non-empty. Environment loading is
  not modelled.
- `JwtStrategy.Validate` takes the seller table as a value. Reading a row cannot fail in this model.
- Database failures are not modelled, except for the insert in `register` (`storeFails`), whose `catch` gives its
  own message. In `login` the phone lookup (src/modules/auth/auth.service.ts:70) sits inside the `try` of lines
  69-95, so a failed query there would be the generic `LoginFailed` 500; in the other operations it is an uncaught
  500. The model has no branch for either.
- The dynamic `orderBy: {[sortBy]: sortOrder}` is the `order` argument of `FindAll`, which must list every key of
  the table once. Sorting, and an unknown `sortBy` field being refused by Prisma, are not modelled.
- `CategoryServices.CategoryService.FindAll`, `ProductServices.ProductService.FindAll` and `Paging.PagesPartition`:
  the model reads every page request against one fixed `order`. The source gives no such order when rows tie
  under `sortBy`: each page is its own `findMany` with `orderBy: {[sortBy]: sortOrder}` and no unique tie-breaker
  (src/modules/category/category.service.ts:59-61, src/modules/product/product.service.ts:102-104). For example,
  two products with the same name under the default `sortBy = 'name'` can then appear on two pages or on none.
  Category names are unique per seller, so the default category listing cannot tie. Whatever the order, page
  `page` still holds `min(limit, total - skip)` rows.
- Case-insensitive matching is ASCII lower-casing. The database collation, and Unicode case folding, are not
  modelled.
- Prices are `real`: the price column is taken to be an exact decimal, and the `@IsNumberString` bounds are compared
  by their decimal value. Floating point is not modelled.
- `totalPages` is integer ceiling division. It equals `Math.ceil(total / limit)` for these integer operands; float
  division is not modelled.
- `QueryValues.ParseCount`: `parseInt` is read as exact integers. Precision loss above 2^53 is not modelled, nor is
  the overflow of a run of more than about 309 digits to `Infinity`, which `@IsInt()` refuses and the model
  accepts. Repeated query parameters (arrays) are not modelled.
- The filter records are modelled as if a global `ValidationPipe({transform: true})` ran on every request: the
  defaults, the `parseInt` transform and the validators all take effect. The application bootstrap is not part of
  this model; the category and product controllers declare no pipe of their own, and the auth controller's pipes
  (src/modules/auth/auth.controller.ts:27, 43) have no `transform`. Without that global pipe the handlers would get
  the raw query text. The same premise underlies `ProductServices.ProductService.Update`'s `requires` and the
  already-validated bodies below.
- Field validators of the bodies (`@IsUrl`, the register DTO's formats) are not modelled: the services receive
  already-validated input. The category rename and the creation body are taken as given.
- `ProductServices.ProductService.Update`: requires that `categoryId` is not the empty string. This relies on the
  `@IsNotEmpty()` of the update body (src/modules/product/dto/product.dto.ts:105-107); the service alone would skip
  the new-category checks for an empty string.
- The "omitted field keeps its value" branches of both `Update` methods assume a pipe that lets missing fields
  through, such as `skipMissingProperties`, or no pipe for the body at all. Every field of the product update body
  and the name of the category update body are `@IsString() @IsNotEmpty()` without `@IsOptional()`
  (src/modules/product/dto/product.dto.ts:54-107, src/modules/category/dto/category.dto.ts:22-38). Under a pipe
  with the default options, a body that omits one of them is refused with a 400 before the service runs.
- `CategoryServices.CategoryService.Update`: the table constraints are promised only for a non-empty new name. The
  `@IsNotEmpty()` of the update body refuses an empty name, and the service would store it without the
  uniqueness check.
- Sellers are not checked as a foreign key of categories, since no operation here deletes a seller.
- Concurrency: every operation runs alone, so the check-then-write races between two requests are not modelled.
- Response shapes: the `{message}` object returned by the two `remove` operations is represented by its message,
  and registration's rest fields are one `Profile` record.
