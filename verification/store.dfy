/** The persistent tables of the restaurant backend, and the request handlers of the
    views that change them. */
module Store {
  import opened Common
  import opened Tables
  import opened Roles
  import opened Policy
  import opened Pricing
  import opened CartTable
  import opened OrderTable
  import opened Serializers

  /** The two role groups the management views add users to. */
  datatype Group = ManagerGroup | CrewGroup

  predicate UsernamesUnique(users: map<UserId, Account>) {
    forall a, b :: a in users && b in users && users[a].username == users[b].username ==> a == b
  }

  ghost predicate AccountsValid(users: map<UserId, Account>, managers: set<UserId>, crew: set<UserId>) {
    UsernamesUnique(users) && managers <= users.Keys && crew <= users.Keys
  }

  /** Keys below the next key to hand out, unique titles, and every menu item in an
      existing category. */
  ghost predicate CatalogValid(categories: map<CategoryId, string>, menu: map<ItemId, MenuItem>,
                               nextCategoryId: int, nextItemId: int) {
    && (forall c :: c in categories ==> c < nextCategoryId)
    && (forall i :: i in menu ==> i < nextItemId)
    && (forall a, b :: a in categories && b in categories && categories[a] == categories[b] ==> a == b)
    && (forall a, b :: a in menu && b in menu && menu[a].title == menu[b].title ==> a == b)
    && (forall i :: i in menu ==> menu[i].category in categories)
  }

  /** Order keys below the next key, every order line belonging to an existing order
      and naming an existing menu item, and every assigned crew an existing user. */
  ghost predicate OrdersValid(orders: map<OrderId, Order>, items: seq<OrderItem>, nextOrderId: int,
                              menu: map<ItemId, MenuItem>, users: map<UserId, Account>) {
    && (forall id :: id in orders ==> id < nextOrderId)
    && (forall x :: x in items ==> x.order in orders && x.menuitem in menu)
    && (forall id :: id in orders && orders[id].deliveryCrew.Some? ==> orders[id].deliveryCrew.value in users)
  }

  /** `SingleOrderView.patch`: `Order.objects.get` raises for a missing key (500);
      otherwise the status flips and nothing else changes. */
  ghost predicate ToggleSpec(before: map<OrderId, Order>, after: map<OrderId, Order>, pk: OrderId, status: Status) {
    if pk !in before then status == ServerError500 && after == before
    else status == Ok200 && after == before[pk := before[pk].(status := !before[pk].status)]
  }

  /** `SingleOrderView.put`: the crew key is read from the body (500 when absent), the
      order and then the user are looked up (404 when either is missing), and the order's
      `delivery_crew` is set. Nothing checks that the user is in the Delivery Crew group. */
  ghost predicate AssignSpec(before: map<OrderId, Order>, after: map<OrderId, Order>, users: map<UserId, Account>,
                             pk: OrderId, data: RequestData, status: Status) {
    match OrderPutField(data)
    case None => status == ServerError500 && after == before
    case Some(crewPk) =>
      if pk !in before || crewPk !in users then status == NotFound404 && after == before
      else status == Created201 && after == before[pk := before[pk].(deliveryCrew := Some(crewPk))]
  }

  /** `SingleOrderView.delete`: `Order.objects.get` raises for a missing key (500);
      otherwise the order goes and its order lines go with it. */
  ghost predicate DeleteSpec(beforeOrders: map<OrderId, Order>, afterOrders: map<OrderId, Order>,
                             beforeItems: seq<OrderItem>, afterItems: seq<OrderItem>, pk: OrderId, status: Status) {
    if pk !in beforeOrders then status == ServerError500 && afterOrders == beforeOrders && afterItems == beforeItems
    else status == Ok200 && afterOrders == beforeOrders - {pk} && afterItems == ItemsNotOf(beforeItems, pk)
  }

  /** `SingleItemView.patch`: `MenuItem.objects.get` raises for a missing key (500);
      otherwise `featured` flips and nothing else changes. */
  ghost predicate FeaturedSpec(before: map<ItemId, MenuItem>, after: map<ItemId, MenuItem>, pk: ItemId, status: Status) {
    if pk !in before then status == ServerError500 && after == before
    else status == Ok200 && after == before[pk := before[pk].(featured := !before[pk].featured)]
  }

  /** Two PATCH requests on an order restore its status. */
  lemma ToggleTwiceRestores(o0: map<OrderId, Order>, o1: map<OrderId, Order>, o2: map<OrderId, Order>,
                            pk: OrderId, s1: Status, s2: Status)
    requires ToggleSpec(o0, o1, pk, s1) && ToggleSpec(o1, o2, pk, s2)
    ensures o2 == o0
  {
    if pk in o0 {
      assert o2[pk] == o0[pk];
    }
  }

  /** Two PATCH requests on a menu item restore its `featured` flag. */
  lemma FeaturedTwiceRestores(m0: map<ItemId, MenuItem>, m1: map<ItemId, MenuItem>, m2: map<ItemId, MenuItem>,
                              pk: ItemId, s1: Status, s2: Status)
    requires FeaturedSpec(m0, m1, pk, s1) && FeaturedSpec(m1, m2, pk, s2)
    ensures m2 == m0
  {
    if pk in m0 {
      assert m2[pk] == m0[pk];
    }
  }

  /** Repeating the same PUT changes nothing more. */
  lemma AssignIsIdempotent(o0: map<OrderId, Order>, o1: map<OrderId, Order>, o2: map<OrderId, Order>,
                           users: map<UserId, Account>, pk: OrderId, data: RequestData, s1: Status, s2: Status)
    requires AssignSpec(o0, o1, users, pk, data, s1) && AssignSpec(o1, o2, users, pk, data, s2)
    ensures o2 == o1 && s2 == s1
  {
  }

  /** A PUT touches only `delivery_crew` of the one order it names. */
  lemma AssignKeepsEverythingElse(o0: map<OrderId, Order>, o1: map<OrderId, Order>, users: map<UserId, Account>,
                                  pk: OrderId, data: RequestData, s: Status, other: OrderId)
    requires AssignSpec(o0, o1, users, pk, data, s)
    ensures o1.Keys == o0.Keys
    ensures other in o0 && other != pk ==> o1[other] == o0[other]
    ensures pk in o0 ==> (o1[pk].user == o0[pk].user && o1[pk].status == o0[pk].status
                          && o1[pk].total == o0[pk].total && o1[pk].date == o0[pk].date)
  {
  }

  /** Once an order is placed from `lines`, and while every menu price still equals the
      unit price snapshotted in the cart, the order's detail adds up to its stored total. */
  lemma PlacedOrderDetailMatchesTotal(items: seq<OrderItem>, id: OrderId, lines: seq<CartLine>,
                                      menu: map<ItemId, MenuItem>)
    requires forall x :: x in items ==> x.order != id && x.menuitem in menu
    requires forall l :: l in lines ==> l.menuitem in menu && menu[l.menuitem].price == l.unitPrice && WellPriced(l)
    ensures forall x :: x in items + ItemsFor(id, lines) ==> x.menuitem in menu
    ensures DetailSum(OrderDetail(items + ItemsFor(id, lines), menu, id)) == SumPrices(lines)
  {
    FreshOrderReadsBackItsItems(items, id, lines);
    DetailSumMatchesStoredTotal(id, lines, menu);
  }

  /** The database: users and role groups, the catalog, carts, orders and order lines. */
  class Bistro {
    var users: map<UserId, Account>
    var managers: set<UserId>
    var crew: set<UserId>
    var categories: map<CategoryId, string>
    var menu: map<ItemId, MenuItem>
    var cart: seq<CartLine>
    var orders: map<OrderId, Order>
    var orderItems: seq<OrderItem>
    var nextCategoryId: int
    var nextItemId: int
    var nextOrderId: int

    ghost predicate Valid()
      reads this
    {
      && AccountsValid(users, managers, crew)
      && CatalogValid(categories, menu, nextCategoryId, nextItemId)
      && CartWellFormed(cart)
      && OrdersValid(orders, orderItems, nextOrderId, menu, users)
    }

    /** A database holding `accounts`, with empty groups and empty tables. */
    constructor (accounts: map<UserId, Account>)
      requires UsernamesUnique(accounts)
      ensures Valid()
      ensures users == accounts && managers == {} && crew == {}
      ensures categories == map[] && menu == map[] && cart == []
      ensures orders == map[] && orderItems == []
    {
      users, managers, crew := accounts, {}, {};
      categories, menu, cart := map[], map[], [];
      orders, orderItems := map[], [];
      nextCategoryId, nextItemId, nextOrderId := 1, 1, 1;
    }

    /** The role authority: the roles user `u` holds in the current state. */
    function RolesOf(u: UserId): (roles: set<Role>)
      reads this
      ensures Manager in roles <==> u in managers
      ensures DeliveryCrew in roles <==> u in crew
      ensures Staff in roles <==> u in users && users[u].isStaff
      ensures Superuser in roles <==> u in users && users[u].isSuperuser
    {
      (if u in managers then {Manager} else {})
      + (if u in crew then {DeliveryCrew} else {})
      + (if u in users && users[u].isStaff then {Staff} else {})
      + (if u in users && users[u].isSuperuser then {Superuser} else {})
    }

    function RequesterOf(who: Option<UserId>): Requester
      reads this
    {
      match who
      case None => Anonymous
      case Some(u) => Member(u, RolesOf(u))
    }

    /** GET on the order list (`OrdersView.get_queryset`) for user `u`, in terms of the
        tables: Manager group or superuser flag sees every order; otherwise a Delivery
        Crew member sees the orders assigned to it; anyone else sees its own orders. */
    function OrderList(u: UserId): (ids: set<OrderId>)
      reads this
      ensures forall id :: id in ids <==>
        id in orders &&
        (if u in managers || (u in users && users[u].isSuperuser) then true
         else if u in crew then orders[id].deliveryCrew == Some(u)
         else orders[id].user == u)
    {
      VisibleOrders(u, RolesOf(u), orders)
    }

    /** POST on the cart (`Customer_Cart.post`). */
    method AddToCart(user: UserId, data: RequestData) returns (status: Status)
      requires Valid()
      modifies this`cart
      ensures Valid()
      ensures ValidateAddToCart(data).Failure? ==> status == BadRequest400 && cart == old(cart)
      ensures ValidateAddToCart(data).Success? ==>
        var id := data["menuitem"];
        var quantity := data["quantity"];
        if id !in menu then status == NotFound404 && cart == old(cart)
        else if LineFor(old(cart), user, id).Some? then status == Ok200 && cart == old(cart)
        else status == Created201 &&
             cart == old(cart) + [CartLine(user, id, quantity, menu[id].price, LineTotal(quantity, menu[id].price))]
    {
      var input := ValidateAddToCart(data);
      if input.Failure? {
        return BadRequest400;
      }
      var id, quantity := input.value.0, input.value.1;
      if id !in menu {
        return NotFound404;
      }
      var item := menu[id];
      var price := LineTotal(quantity, item.price);
      if LineFor(cart, user, id).Some? {
        // the create raises: the (user, menu item) pair already has a line
        return Ok200;
      }
      var line := CartLine(user, id, quantity, item.price, price);
      AppendKeepsWellFormed(cart, line);
      cart := cart + [line];
      status := Created201;
    }

    /** DELETE on the cart (`Customer_Cart.delete`): with `menuitem`, remove that one
        line of the user's; without it, clear the user's whole cart. */
    method RemoveFromCart(user: UserId, data: RequestData) returns (status: Status)
      requires Valid()
      modifies this`cart
      ensures Valid()
      ensures "menuitem" in data ==>
        var item := data["menuitem"];
        if LineFor(old(cart), user, item).None? then status == NotFound404 && cart == old(cart)
        else status == Ok200 && cart == RemoveLine(old(cart), user, item) && NoLine(cart, user, item)
      ensures "menuitem" !in data ==> status == Created201 && cart == WithoutUser(old(cart), user)
    {
      if "menuitem" in data {
        var item := ValidateRemoveFromCart(data).value;
        if LineFor(cart, user, item).None? {
          return NotFound404;
        }
        RemoveLineKeepsWellFormed(cart, user, item);
        RemovedLineIsGone(cart, user, item);
        cart := RemoveLine(cart, user, item);
        status := Ok200;
      } else {
        ClearCart(user);
        status := Created201;
      }
    }

    /** `Order.objects.create`: a new order under the next key, with status false and no crew. */
    method OpenOrder(user: UserId, total: Cents, today: Date) returns (id: OrderId)
      requires Valid()
      modifies this`orders, this`nextOrderId
      ensures Valid()
      ensures id == old(nextOrderId) && id !in old(orders)
      ensures orders == old(orders)[id := Order(user, total, false, None, today)] && nextOrderId == id + 1
    {
      id := nextOrderId;
      orders := orders[id := Order(user, total, false, None, today)];
      nextOrderId := nextOrderId + 1;
    }

    /** `Cart.objects.filter(user=user).delete()`. */
    method ClearCart(user: UserId)
      requires Valid()
      modifies this`cart
      ensures Valid()
      ensures cart == WithoutUser(old(cart), user) && LinesOf(cart, user) == []
    {
      WithoutUserKeepsWellFormed(cart, user);
      ClearingKeepsOtherUsers(cart, user, user);
      cart := WithoutUser(cart, user);
    }

    /** The loop of `OrdersView.post`: one order line of order `id` per line of `lines`,
        in order, stopping at the first line whose menu item is gone. `k` is the number of
        order lines created. */
    method CreateOrderItems(id: OrderId, lines: seq<CartLine>) returns (k: nat)
      requires Valid() && id in orders
      modifies this`orderItems
      ensures Valid()
      ensures k == LeadingOnMenu(lines, menu)
      ensures orderItems == old(orderItems) + ItemsFor(id, lines[..k])
      ensures forall x :: x in orderItems ==> x in old(orderItems) || (x.order == id && x.menuitem in menu)
    {
      k := 0;
      while k < |lines| && lines[k].menuitem in menu
        invariant 0 <= k <= |lines|
        invariant forall j :: 0 <= j < k ==> lines[j].menuitem in menu
        invariant orderItems == old(orderItems) + ItemsFor(id, lines[..k])
        invariant forall x :: x in orderItems ==> x in old(orderItems) || (x.order == id && x.menuitem in menu)
        invariant Valid()
      {
        assert ItemsFor(id, lines[..k + 1]) == ItemsFor(id, lines[..k]) + [OrderItem(id, lines[k].menuitem, lines[k].quantity)];
        orderItems := orderItems + [OrderItem(id, lines[k].menuitem, lines[k].quantity)];
        k := k + 1;
      }
    }

    /** POST on the order list (`OrdersView.post`): create the order, then one order
        line per cart line, then clear the cart. There is no transaction: a cart line
        whose menu item is gone stops the loop with 404, after the order and the lines
        before it were created, and the cart is left as it was. An empty cart places an
        order with total 0 and no lines. */
    method PlaceOrder(user: UserId, today: Date) returns (status: Status, number: Option<OrderId>)
      requires Valid()
      modifies this`cart, this`orders, this`orderItems, this`nextOrderId
      ensures Valid()
      ensures old(nextOrderId) !in old(orders)
      ensures var lines := LinesOf(old(cart), user);
              var id := old(nextOrderId);
              var k := LeadingOnMenu(lines, menu);
              && orders == old(orders)[id := Order(user, SumPrices(lines), false, None, today)]
              && nextOrderId == id + 1
              && orderItems == old(orderItems) + ItemsFor(id, lines[..k])
              && (k == |lines| ==> status == Created201 && number == Some(id) && cart == WithoutUser(old(cart), user))
              && (k < |lines| ==> status == NotFound404 && number == None && cart == old(cart))
      ensures status == Created201 ==> LinesOf(cart, user) == []
    {
      var lines := LinesOf(cart, user);
      var total := CalculateTotal(lines);
      var id := OpenOrder(user, total, today);
      var k := CreateOrderItems(id, lines);
      if k < |lines| {
        return NotFound404, None;
      }
      assert lines[..|lines|] == lines;
      ClearCart(user);
      status, number := Created201, Some(id);
    }

    /** PATCH on one order. */
    method ToggleOrderStatus(pk: OrderId) returns (status: Status)
      requires Valid()
      modifies this`orders
      ensures Valid()
      ensures ToggleSpec(old(orders), orders, pk, status)
    {
      if pk !in orders {
        return ServerError500;
      }
      var order := orders[pk];
      orders := orders[pk := order.(status := !order.status)];
      status := Ok200;
    }

    /** PUT on one order: assign a delivery crew. */
    method AssignDeliveryCrew(pk: OrderId, data: RequestData) returns (status: Status)
      requires Valid()
      modifies this`orders
      ensures Valid()
      ensures AssignSpec(old(orders), orders, users, pk, data, status)
    {
      var field := OrderPutField(data);
      if field.None? {
        return ServerError500;
      }
      var crewPk := field.value;
      if pk !in orders || crewPk !in users {
        return NotFound404;
      }
      orders := orders[pk := orders[pk].(deliveryCrew := Some(crewPk))];
      status := Created201;
    }

    /** DELETE on one order. */
    method DeleteOrder(pk: OrderId) returns (status: Status)
      requires Valid()
      modifies this`orders, this`orderItems
      ensures Valid()
      ensures DeleteSpec(old(orders), orders, old(orderItems), orderItems, pk, status)
    {
      if pk !in orders {
        return ServerError500;
      }
      orders := orders - {pk};
      orderItems := ItemsNotOf(orderItems, pk);
      status := Ok200;
    }

    /** A request to the single-order URL, as the view runs it: `get_permissions` looks
        the order up first (500 when it is missing), the selected permission classes are
        checked (401 or 403), and only then the handler runs. GET only reads. */
    method SingleOrderRequest(who: Option<UserId>, m: Method, pk: OrderId, data: RequestData) returns (status: Status)
      requires Valid()
      requires m != POST
      modifies this`orders, this`orderItems
      ensures Valid()
      ensures pk !in old(orders) ==> status == ServerError500 && orders == old(orders) && orderItems == old(orderItems)
      ensures pk in old(orders) ==>
        var denial := Denial(SingleOrderPermissions(who == Some(old(orders)[pk].user), m), RequesterOf(who));
        if denial.Some? then status == denial.value && orders == old(orders) && orderItems == old(orderItems)
        else if m == GET then status == Ok200 && orders == old(orders) && orderItems == old(orderItems)
        else if m == PATCH then ToggleSpec(old(orders), orders, pk, status) && orderItems == old(orderItems)
        else if m == PUT then AssignSpec(old(orders), orders, users, pk, data, status) && orderItems == old(orderItems)
        else DeleteSpec(old(orders), orders, old(orderItems), orderItems, pk, status)
    {
      if pk !in orders {
        return ServerError500;
      }
      var isOwner := who == Some(orders[pk].user);
      var denial := Denial(SingleOrderPermissions(isOwner, m), RequesterOf(who));
      if denial.Some? {
        return denial.value;
      }
      if m == GET {
        status := Ok200;
      } else if m == PATCH {
        status := ToggleOrderStatus(pk);
      } else if m == PUT {
        status := AssignDeliveryCrew(pk, data);
      } else {
        status := DeleteOrder(pk);
      }
    }

    /** GET on one order, once admitted: its order lines as the serializer shows them. */
    function OrderDetailOf(pk: OrderId): (r: seq<DetailLine>)
      reads this
      requires Valid()
      ensures var lines := ItemsOf(orderItems, pk);
        && |r| == |lines|
        && forall j :: 0 <= j < |lines| ==>
             lines[j].menuitem in menu
             && r[j].quantity == lines[j].quantity
             && r[j].unitPrice == menu[lines[j].menuitem].price
             && r[j].name == menu[lines[j].menuitem].title
             && r[j].price == lines[j].quantity * menu[lines[j].menuitem].price
    {
      OrderDetail(orderItems, menu, pk)
    }

    /** PATCH on one menu item. */
    method ToggleFeatured(pk: ItemId) returns (status: Status)
      requires Valid()
      modifies this`menu
      ensures Valid()
      ensures FeaturedSpec(old(menu), menu, pk, status)
    {
      if pk !in menu {
        return ServerError500;
      }
      var item := menu[pk];
      menu := menu[pk := item.(featured := !item.featured)];
      status := Ok200;
    }

    /** POST on the Manager or Delivery Crew user list (`ManagerUsersView.post`,
        `Delivery_crew_management.post`). A body without `username` raises on the read
        (500); an empty name makes the view return no response (500); an unknown name
        gives 404; otherwise the user is added to the group, once. */
    method AddUserToGroup(g: Group, username: Option<string>) returns (status: Status)
      requires Valid()
      modifies this`managers, this`crew
      ensures Valid()
      ensures username.None? || username == Some("") ==>
        status == ServerError500 && managers == old(managers) && crew == old(crew)
      ensures username.Some? && username.value != "" && (forall u :: u in users ==> users[u].username != username.value) ==>
        status == NotFound404 && managers == old(managers) && crew == old(crew)
      ensures status == Created201 <==>
        username.Some? && username.value != "" && exists u :: u in users && users[u].username == username.value
      ensures status == Created201 ==>
        exists u :: u in users && users[u].username == username.value &&
          if g == ManagerGroup then managers == old(managers) + {u} && crew == old(crew)
          else crew == old(crew) + {u} && managers == old(managers)
    {
      if username.None? || username.value == "" {
        return ServerError500;
      }
      var name := username.value;
      if u :| u in users && users[u].username == name {
        if g == ManagerGroup {
          managers := managers + {u};
        } else {
          crew := crew + {u};
        }
        status := Created201;
      } else {
        status := NotFound404;
      }
    }

    /** POST on the category list, through `CategorySerializer`. */
    method CreateCategory(title: string) returns (status: Status, message: Option<string>)
      requires Valid()
      modifies this`categories, this`nextCategoryId
      ensures Valid()
      ensures title in old(categories.Values) ==>
        status == BadRequest400 && message == Some(CategoryTaken)
        && categories == old(categories) && nextCategoryId == old(nextCategoryId)
      ensures title !in old(categories.Values) ==>
        status == Created201 && message == None && old(nextCategoryId) !in old(categories)
        && categories == old(categories)[old(nextCategoryId) := title] && nextCategoryId == old(nextCategoryId) + 1
    {
      var checked := ValidateCategory(categories, title);
      if checked.Failure? {
        return BadRequest400, Some(checked.error);
      }
      categories := categories[nextCategoryId := title];
      nextCategoryId := nextCategoryId + 1;
      status, message := Created201, None;
    }

    /** POST on the menu, through `MenuItemSerializer`: the title must be new and the
        category is named by its title. */
    method CreateMenuItem(title: string, price: Cents, featured: bool, categoryTitle: string)
      returns (status: Status, errors: set<string>)
      requires Valid()
      modifies this`menu, this`nextItemId
      ensures Valid()
      ensures errors == ValidateMenuItem(old(menu), categories, title, categoryTitle)
      ensures errors != {} ==> status == BadRequest400 && menu == old(menu) && nextItemId == old(nextItemId)
      ensures errors == {} ==>
        status == Created201 && old(nextItemId) !in old(menu) && nextItemId == old(nextItemId) + 1 &&
        exists c :: c in categories && categories[c] == categoryTitle &&
          menu == old(menu)[old(nextItemId) := MenuItem(title, price, featured, c)]
    {
      errors := ValidateMenuItem(menu, categories, title, categoryTitle);
      if errors != {} {
        return BadRequest400, errors;
      }
      var c :| c in categories && categories[c] == categoryTitle;
      menu := menu[nextItemId := MenuItem(title, price, featured, c)];
      nextItemId := nextItemId + 1;
      status := Created201;
    }
  }
}
