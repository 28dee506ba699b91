# ByteBistro order lifecycle, modelled in Dafny

This project models the order lifecycle of the ByteBistro restaurant REST backend, as
implemented by the view handlers in `api/views.py` and the serializers in
`api/serializers.py`. It covers:

- **The cart table.** Adding a line snapshots the menu item's unit price and stores
  quantity × unit price as the line price. Deleting with `menuitem` removes one line.
  Deleting without it clears every line the user owns.
- **Order placement.** The order total is the sum of the stored line prices. The order
  is created with status `False` and no delivery crew. Then comes one order line per cart
  line, and finally the user's cart is cleared.
- **Order mutations on the single-order URL.** PATCH flips the status. PUT assigns a
  delivery crew. DELETE removes the order together with its order lines.
- **Role decisions.** These cover which permission classes each view selects per request
  method, and which orders the order listing shows.
- **The catalog extras.** These are the `featured` toggle on a menu item, category and
  menu-item creation with unique titles, and adding a user to the Manager or Delivery
  Crew group.

Money is integer cents. Request bodies are maps from field names to integers. A
requester is either anonymous or a user with a set of roles: Manager, Delivery Crew, staff
(`is_staff`, which is what `IsAdminUser` tests) and superuser (`is_superuser`, which only
the order listing tests).

The database is one object, `Store.Bistro`. Its fields are:

- the user table and the two group memberships;
- the categories and the menu;
- the cart table, kept as a sequence in insertion order;
- the orders and the order-line table.

Its methods are the state-changing request handlers. `Valid()` holds before and after
each of them. Among other things it states that:

- the cart has at most one line per (user, menu item) pair;
- every stored line price is quantity × unit price;
- every order line belongs to an existing order and names an existing menu item;
- titles are unique.

The permission and listing logic is pure, in `Roles` and `Policy`. Totals are in
`Pricing`. The table filters are in `CartTable` and `OrderTable`. Input validation and
the order-detail representation are in `Serializers`.

The quirks of the code are modelled as written:

- An empty cart places an order with total 0 and no lines.
- Placement runs without a transaction. A cart line whose menu item is gone stops the
  loop with 404 after the order and the earlier order lines exist, and the cart is kept.
- `OrdersView.get_permissions` always selects `[IsAuthenticated]`, because the string
  `'POST'` is truthy.
- PUT never checks that the assigned user is in the Delivery Crew group.
- `[IsAdminUser, IsManager]` on the single Delivery Crew user view needs both.
- Staff and superuser are different flags.

## Model

| member | source | states |
|---|---|---|
| Roles.Denial | api/views.py:80-85 | A list of permission classes refuses a request exactly when some class in it does not grant the requester. The refusal is 401 for an anonymous requester and 403 for an authenticated one. |
| Policy.SingleItemPermissions | api/views.py:72-85 | Every method needs a login. PATCH additionally needs Manager or staff, and DELETE needs staff. |
| Policy.CatalogPermissions | api/views.py:130-143 | For the category list, and likewise for the menu list at api/views.py:170-179, POST needs staff. Every other method is open to anyone, anonymous included. |
| Policy.GroupListPermissions | api/views.py:186 | The Manager and Delivery Crew user lists admit exactly the Managers and staff. |
| Policy.ManagerSingleUserPermissions | api/views.py:203 | The single Manager user view admits exactly staff. |
| Policy.CrewSingleUserPermissions | api/views.py:227 | The single Delivery Crew user view admits only a requester who is both staff and Manager. |
| Policy.CrewSingleUserNeedsBothRoles | api/views.py:227 | Staff alone is refused, Manager alone is refused, and staff plus Manager is admitted. |
| Policy.OrdersPermissions | api/views.py:281-286 | For every method, the order list admits exactly the authenticated requesters, because the `'GET' or 'POST'` test always holds. |
| Policy.OrdersPermissionsIgnoreMethod | api/views.py:282-285 | Which requesters are admitted does not depend on the method. The Manager-or-admin branch is unreachable. |
| Policy.SingleOrderPermissions | api/views.py:309-317 | The owner's GET needs only a login. PUT and DELETE need Manager or staff. Everything else needs Delivery Crew, Manager or staff. |
| Policy.NonOwnerCustomerRefusedDetail | api/views.py:311-316 | An authenticated user with no role gets 403 on GET of someone else's order. |
| Policy.CrewPassesForAnyOrder | api/views.py:313-316 | A Delivery Crew member may GET and PATCH any order, assigned or not, owned or not. It is refused PUT and DELETE. |
| Policy.VisibleOrders | api/views.py:272-279 | The listing is every order for a Manager or superuser. Otherwise a Delivery Crew member gets exactly the orders assigned to it, and anyone else gets exactly the orders it owns. |
| Policy.ListingOnlyShowsEntitledOrders | api/views.py:272-279 | Every listed order exists. Either the user sees all orders, or the order is assigned to it as crew, or it owns the order and is not crew. |
| Policy.ManagerPrecedesCrew | api/views.py:273-276 | Manager or superuser together with Delivery Crew still lists every order. |
| Policy.CrewDoesNotSeeOwnUnassignedOrder | api/views.py:275-276 | A crew member's listing omits an order it owns when that order is not assigned to it. |
| Policy.StaffAloneSeesOwnOrders | api/views.py:273 | Staff without the superuser flag sees only its own orders, while the superuser flag sees others' orders. |
| Pricing.CalculateTotal | api/views.py:299-303 | The loop's result is the sum of the stored `price` of the lines, and 0 for no lines. |
| Pricing.StoredPricesMatchLineTotals | api/views.py:248-250 | When every line's stored price is quantity × unit price, the stored prices add up to the sum of quantity × unit price. |
| Pricing.SumPricesAppend | api/views.py:299-303 | The total of two runs of cart lines is the sum of their totals. |
| CartTable.LinesOf | api/views.py:289 | The user's cart lines are exactly the table's lines owned by that user. |
| CartTable.WithoutUser | api/views.py:264 | After clearing, the table holds exactly the lines not owned by the user. |
| CartTable.LineFor | api/views.py:260 | The lookup finds a line of that user for that item, and finds nothing exactly when no such line exists. |
| CartTable.RemoveLine | api/views.py:260-261 | Deleting the found line removes exactly one occurrence of it. With no such line the table is unchanged. |
| CartTable.RemovedLineIsGone | api/views.py:260-261 | With one line per pair, no line of that user for that item remains after the delete. |
| CartTable.CartSplitsByOwner | api/views.py:264 | The table is exactly the user's lines plus the lines that clearing keeps, as a multiset. |
| CartTable.ClearingKeepsOtherUsers | api/views.py:264 | After clearing, the user has no lines, and every other user's lines are unchanged and in the same order. |
| CartTable.ClearingIsIdempotent | api/views.py:263-265 | Clearing twice leaves the same table as clearing once. |
| CartTable.AppendKeepsWellFormed | api/views.py:250 | Appending a well-priced line for a new (user, item) pair keeps one line per pair and all prices consistent. |
| CartTable.RemoveLineKeepsWellFormed | api/views.py:260-261 | Deleting one line keeps the cart well formed and adds no line. |
| CartTable.WithoutUserKeepsWellFormed | api/views.py:264 | Clearing a user's lines keeps the cart well formed. |
| OrderTable.ItemsFor | api/views.py:292-295 | Placement builds one order line per cart line. |
| OrderTable.LeadingOnMenu | api/views.py:292-293 | This is how many leading cart lines name an existing menu item. The next line, if any, does not. |
| OrderTable.ItemsOf | api/views.py:319-321 | The lines of an order are exactly the table's order lines carrying its key. |
| OrderTable.ItemsNotOf | api/views.py:344 | After the cascade, the table holds exactly the order lines of other orders. |
| OrderTable.FreshOrderReadsBackItsItems | api/views.py:291-295 | Reading back the lines of a newly created order gives exactly the lines placement created, in order. |
| OrderTable.ItemsOfAppend | api/views.py:319-321 | Filtering by order distributes over appending order lines. |
| Serializers.ValidateAddToCart | api/serializers.py:75-82 | Validation succeeds exactly when both `menuitem` and `quantity` are present, and then yields those values. Otherwise the errors name exactly the missing fields. |
| Serializers.AddToCartReadsOnlyItsFields | api/serializers.py:78 | Other fields in the body do not affect the cart input. |
| Serializers.ValidateRemoveFromCart | api/serializers.py:84-90 | Validation succeeds exactly when `menuitem` is present, and otherwise reports `menuitem`. |
| Serializers.OrderPutField | api/serializers.py:126-129 | The crew key is present exactly when the body has `delivery_crew`, and it is that value. |
| Serializers.OrderPutReadsOnlyCrew | api/serializers.py:129 | Other fields in the body do not affect the assign-crew input. |
| Serializers.UniqueTitle | api/serializers.py:26-29 | A title is rejected exactly when it is already taken, with the given message. |
| Serializers.ValidateCategory | api/serializers.py:20-31 | A category title is rejected exactly when some category already has it, with "This category already exists". |
| Serializers.ValidateMenuItem | api/serializers.py:34-49 | A menu item is accepted exactly when its title is new and its category title names an existing category. "This title already exists" is reported exactly for a taken title, and "Object with title=<value> does not exist." exactly for an unknown category. |
| Serializers.UnknownCategory | api/serializers.py:35 | The unknown-category error is "Object with title=", then the submitted title, then " does not exist.", so the title can be read back from it. |
| Serializers.DetailOf | api/serializers.py:110-120 | A detail line carries the quantity, plus the menu item's current price as `unit_price`, its title as `name`, and quantity × current price as `price`. |
| Serializers.Details | api/serializers.py:110-120 | The detail listing has one entry per order line, in order, each being that line's detail. |
| Serializers.DetailSumMatchesLineTotals | api/serializers.py:115-116 | While menu prices equal the snapshotted unit prices, the detail prices of a placed order add up to the sum of quantity × unit price of its cart lines. |
| Serializers.DetailSumMatchesStoredTotal | api/serializers.py:115-116 | Under the same condition, the detail prices add up to the total that placement stored. |
| Store.PlacedOrderDetailMatchesTotal | api/views.py:290-295 | Once an order is placed from well-priced cart lines, and while menu prices are unchanged, its detail adds up to its stored total. |
| Store.ToggleTwiceRestores | api/views.py:324-328 | Two PATCHes on an order restore the order table. |
| Store.FeaturedTwiceRestores | api/views.py:100-102 | Two PATCHes on a menu item restore the menu. |
| Store.AssignIsIdempotent | api/views.py:330-339 | Repeating a PUT yields the same status and changes nothing further. |
| Store.AssignKeepsEverythingElse | api/views.py:335-338 | A PUT keeps the set of orders, every other order, and the owner, status, total and date of the order it names. |
| Store.Bistro.RolesOf | api/views.py:273-275 | The roles of a user are read from the Manager and Delivery Crew groups and the staff and superuser flags. |
| Store.Bistro.OrderList | api/views.py:272-279 | This is the listing in terms of the tables: every order for Manager group or superuser flag, otherwise the assigned orders for a Delivery Crew member, otherwise the user's own orders. |
| Store.Bistro.AddToCart | api/views.py:242-253 | A missing field gives 400 and no change. An unknown item gives 404 and no change. An existing line for the pair makes the create fail, giving 200 and no change. Otherwise the response is 201 and exactly one line is appended, carrying the item's price and quantity × price. |
| Store.Bistro.RemoveFromCart | api/views.py:255-265 | With `menuitem`, the user's line for that item is removed (200), or 404 if there is none. Without `menuitem`, every line of the user is removed (201) and other lines stay. |
| Store.Bistro.OpenOrder | api/views.py:291 | The new order takes the next key, has status false and no crew, and no existing order is overwritten. |
| Store.Bistro.CreateOrderItems | api/views.py:292-295 | The loop appends one order line per cart line, in order, and stops at the first cart line whose item is gone. |
| Store.Bistro.ClearCart | api/views.py:296 | The user's cart lines go, other lines stay, and the cart stays valid. |
| Store.Bistro.PlaceOrder | api/views.py:288-297 | The order always exists afterwards, with the requester, total = sum of the stored line prices, status false and no crew. If every item exists, one order line per cart line is created, the cart is cleared, and the response is 201 with the order's key. Otherwise only the lines before the first missing item are created, the cart is unchanged, and the response is 404. |
| Store.Bistro.ToggleOrderStatus | api/views.py:324-328 | A missing order gives 500. Otherwise only its status flips (200). |
| Store.Bistro.AssignDeliveryCrew | api/views.py:330-339 | A body without `delivery_crew` gives 500. A missing order or user gives 404. Otherwise only `delivery_crew` of that order is set (201), with no group check. |
| Store.Bistro.DeleteOrder | api/views.py:341-345 | A missing order gives 500. Otherwise the order and exactly its order lines are removed (200). |
| Store.Bistro.SingleOrderRequest | api/views.py:309-345 | A missing order gives 500 before any permission check. A refused permission gives 401 or 403 with no change. Otherwise GET reads, and PATCH, PUT and DELETE behave as their handlers. |
| Store.Bistro.OrderDetailOf | api/views.py:319-321 | The detail of an order has one entry per order line, carrying its quantity and the menu item's current price, title and quantity × current price. |
| Store.Bistro.ToggleFeatured | api/views.py:100-106 | A missing menu item gives 500. Otherwise only its `featured` flag flips (200). |
| Store.Bistro.AddUserToGroup | api/views.py:193-199 | No `username` or an empty one gives 500. An unknown username gives 404. Otherwise the named user is inserted into the group (201) and the other group is unchanged. |
| Store.Bistro.CreateCategory | api/serializers.py:20-31 | A taken title gives 400 with "This category already exists". Otherwise the category is added under a fresh key (201). |
| Store.Bistro.CreateMenuItem | api/serializers.py:34-49 | Validation errors give 400 and no change. Otherwise the item is added under a fresh key, in the category that has the given title (201). |

## Left out

- `LogoutAllView`, which blacklists tokens, is left out. It is I/O against the token store.
- Throttling, search, ordering and pagination are left out. They are framework mechanics.
- The URL routing files are left out.
- `IsManager` and `IsDeliveryCrew` live in `api/permissions.py`, which is not part of this model. They are modelled as membership of the Manager and Delivery Crew roles.
- The `models` module is not part of this model. Field types, decimal precision, foreign-key checks during serializer validation, and other database errors are not modelled. The view's own lookups (404 or 500) are the existence checks.
- `Store.Bistro.AddToCart` models a failing `Cart.objects.create` only as "a line for this (user, item) pair already exists". Other database errors from the create are not modelled.
- `Store.Bistro.AddToCart` does not check the quantity's sign, and neither does the view. `int(quantity)` is the integer field itself.
- `Store.Bistro.AddUserToGroup` assumes the groups exist. A missing `Manager` or `Delivery Crew` group (500 from `Group.objects.get`) is not modelled.
- `Store.Bistro.SingleOrderRequest` excludes POST. The single-order URL inherits a list-create POST that is not written in the view.
- HEAD and OPTIONS are not modelled.
- The list GETs of the generic views are not modelled beyond the order listing and the order detail. Neither are the retrieve and destroy handlers of the single user views, which come from the framework.
- Dates are an opaque input, and `date.today()` is a parameter. Response message texts, date formatting and `UserSerializer` are left out.
- `Roles.Denial`: the 401/403 split assumes the first configured authentication class is token or JWT authentication, which sends a `WWW-Authenticate` header. Under an authentication class without that header the framework answers an anonymous requester with 403 too. The settings module is not part of this model.
- Concurrency and transactions are not modelled. Each handler runs alone against the tables.
- These behaviours are kept exactly as the view code has them:
  - an empty cart is accepted;
  - a failed placement is not rolled back;
  - PUT does not check the Delivery Crew role;
  - staff is not a wildcard for the superuser-only listing branch.
