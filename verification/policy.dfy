/** The role-based decisions of the views: which permission classes each view selects
    for a request method, and which orders the order listing shows. All of them are
    pure functions of the requester's roles, the method and ownership. */
module Policy {
  import opened Common
  import opened Roles
  import opened Tables

  /** Python truthiness of a string literal used as a condition. */
  predicate Truthy(s: string) {
    s != ""
  }

  /** `SingleItemView.get_permissions`: reading one menu item needs a login, toggling
      `featured` (PATCH) needs Manager or staff, deleting needs staff. */
  function SingleItemPermissions(m: Method): (ps: seq<Permission>)
    ensures forall r :: Allowed(ps, r) <==>
      && r.Member?
      && (m == PATCH ==> Has(r, Manager) || Has(r, Staff))
      && (m == DELETE ==> Has(r, Staff))
  {
    BasicGrants();
    AllowedPair(IsAuthenticated, Either(IsManager, IsAdminUser));
    AllowedPair(IsAuthenticated, IsAdminUser);
    if m == DELETE then [IsAuthenticated, IsAdminUser]
    else if m == PATCH then [IsAuthenticated, Either(IsManager, IsAdminUser)]
    else [IsAuthenticated]
  }

  /** `CategoryView.get_permissions` and `MenuItemView.get_permissions`, which are the
      same: anyone may list categories or the menu, only staff may add to them. */
  function CatalogPermissions(m: Method): (ps: seq<Permission>)
    ensures forall r :: Allowed(ps, r) <==> (m == POST ==> Has(r, Staff))
    ensures m != POST ==> Allowed(ps, Anonymous)
  {
    if m == POST then [IsAdminUser] else [AllowAny]
  }

  /** The fixed `permission_classes` of `ManagerUsersView` and `Delivery_crew_management`:
      a logged-in Manager or staff user. */
  function GroupListPermissions(): (ps: seq<Permission>)
    ensures forall r :: Allowed(ps, r) <==> Has(r, Manager) || Has(r, Staff)
  {
    BasicGrants();
    AllowedPair(IsAuthenticated, Either(IsManager, IsAdminUser));
    [IsAuthenticated, Either(IsManager, IsAdminUser)]
  }

  /** The fixed `permission_classes` of `ManagerSingleUserView`: staff only. */
  function ManagerSingleUserPermissions(): (ps: seq<Permission>)
    ensures forall r :: Allowed(ps, r) <==> Has(r, Staff)
  {
    [IsAdminUser]
  }

  /** The fixed `permission_classes` of `Delivery_crew_management_single_view`. The two
      classes are listed side by side, not joined by `|`, so a requester must pass both. */
  function CrewSingleUserPermissions(): (ps: seq<Permission>)
    ensures forall r :: Allowed(ps, r) <==> Has(r, Staff) && Has(r, Manager)
  {
    BasicGrants();
    AllowedPair(IsAdminUser, IsManager);
    [IsAdminUser, IsManager]
  }

  /** `OrdersView.get_permissions` as written: the condition `method == 'GET' or 'POST'`
      is always true, so the Manager-or-staff branch is never taken. */
  function OrdersPermissions(m: Method): (ps: seq<Permission>)
    ensures forall r :: Allowed(ps, r) <==> r.Member?
  {
    BasicGrants();
    AllowedPair(IsAuthenticated, Either(IsManager, IsAdminUser));
    if m == GET || Truthy("POST") then [IsAuthenticated]
    else [IsAuthenticated, Either(IsManager, IsAdminUser)]
  }

  /** `SingleOrderView.get_permissions`. `isOwner` says whether the requester is the
      order's owner. The owner's GET needs only a login; PUT and DELETE need Manager
      or staff; every other request needs Delivery Crew, Manager or staff, and nothing
      asks whether a crew member is the one assigned to the order. */
  function SingleOrderPermissions(isOwner: bool, m: Method): (ps: seq<Permission>)
    ensures forall r :: Allowed(ps, r) <==>
      && r.Member?
      && (if isOwner && m == GET then true
          else if m == PUT || m == DELETE then Has(r, Manager) || Has(r, Staff)
          else Has(r, DeliveryCrew) || Has(r, Manager) || Has(r, Staff))
  {
    BasicGrants();
    AllowedPair(IsAuthenticated, Either(IsManager, IsAdminUser));
    AllowedPair(IsAuthenticated, Either(Either(IsDeliveryCrew, IsManager), IsAdminUser));
    if isOwner && m == GET then [IsAuthenticated]
    else if m == PUT || m == DELETE then [IsAuthenticated, Either(IsManager, IsAdminUser)]
    else [IsAuthenticated, Either(Either(IsDeliveryCrew, IsManager), IsAdminUser)]
  }

  /** Whether the order listing grants `u` the whole table: Manager membership or the
      superuser flag. Staff without the superuser flag does not qualify. */
  predicate SeesAllOrders(roles: set<Role>) {
    Manager in roles || Superuser in roles
  }

  /** `OrdersView.get_queryset`: the keys of the orders listed for user `u`. */
  function VisibleOrders(u: UserId, roles: set<Role>, orders: map<OrderId, Order>): (ids: set<OrderId>)
    ensures ids <= orders.Keys
    ensures SeesAllOrders(roles) ==> ids == orders.Keys
    ensures !SeesAllOrders(roles) && DeliveryCrew in roles ==>
      forall id :: id in ids <==> id in orders && orders[id].deliveryCrew == Some(u)
    ensures !SeesAllOrders(roles) && DeliveryCrew !in roles ==>
      forall id :: id in ids <==> id in orders && orders[id].user == u
  {
    if SeesAllOrders(roles) then orders.Keys
    else if DeliveryCrew in roles then set id | id in orders && orders[id].deliveryCrew == Some(u)
    else set id | id in orders && orders[id].user == u
  }

  /** Every listed order is one the user may see: it sees everything, or the order is
      assigned to it as crew, or it owns the order and is not crew. */
  lemma ListingOnlyShowsEntitledOrders(u: UserId, roles: set<Role>, orders: map<OrderId, Order>, id: OrderId)
    requires id in VisibleOrders(u, roles, orders)
    ensures id in orders
    ensures || SeesAllOrders(roles)
            || (DeliveryCrew in roles && orders[id].deliveryCrew == Some(u))
            || (DeliveryCrew !in roles && orders[id].user == u)
  {
  }

  /** Manager or superuser takes precedence over Delivery Crew: holding both roles
      lists every order, not only the assigned ones. */
  lemma ManagerPrecedesCrew(u: UserId, orders: map<OrderId, Order>)
    ensures VisibleOrders(u, {Manager, DeliveryCrew}, orders) == orders.Keys
    ensures VisibleOrders(u, {Superuser, DeliveryCrew}, orders) == orders.Keys
  {
  }

  /** A crew member who placed an order but is not assigned to it does not see it in
      the listing: the crew branch replaces the owner branch. */
  lemma CrewDoesNotSeeOwnUnassignedOrder(u: UserId, orders: map<OrderId, Order>, id: OrderId)
    requires id in orders && orders[id].user == u && orders[id].deliveryCrew != Some(u)
    ensures id !in VisibleOrders(u, {DeliveryCrew}, orders)
  {
  }

  /** The staff flag alone does not widen the listing (the superuser flag does). */
  lemma StaffAloneSeesOwnOrders(u: UserId, orders: map<OrderId, Order>, id: OrderId)
    requires id in orders && orders[id].user != u
    ensures id !in VisibleOrders(u, {Staff}, orders)
    ensures id in VisibleOrders(u, {Superuser}, orders)
  {
  }

  /** The order list and order placement admit exactly the logged-in users, whatever
      the method. */
  lemma OrdersPermissionsIgnoreMethod(m: Method, r: Requester)
    ensures Allowed(OrdersPermissions(m), r) <==> Allowed(OrdersPermissions(GET), r)
    ensures r.Member? ==> Allowed(OrdersPermissions(m), r)
  {
  }

  /** A logged-in user with no role who does not own an order is refused its detail. */
  lemma NonOwnerCustomerRefusedDetail(u: UserId)
    ensures !Allowed(SingleOrderPermissions(false, GET), Member(u, {}))
    ensures Denial(SingleOrderPermissions(false, GET), Member(u, {})) == Some(Forbidden403)
  {
  }

  /** Any Delivery Crew member passes the check for reading and toggling any order,
      assigned to it or not, but not for assigning crew or deleting. */
  lemma CrewPassesForAnyOrder(u: UserId, isOwner: bool)
    ensures Allowed(SingleOrderPermissions(isOwner, GET), Member(u, {DeliveryCrew}))
    ensures Allowed(SingleOrderPermissions(isOwner, PATCH), Member(u, {DeliveryCrew}))
    ensures !Allowed(SingleOrderPermissions(isOwner, PUT), Member(u, {DeliveryCrew}))
    ensures !Allowed(SingleOrderPermissions(isOwner, DELETE), Member(u, {DeliveryCrew}))
  {
  }

  /** Neither staff alone nor Manager alone reaches the single delivery-crew user view. */
  lemma CrewSingleUserNeedsBothRoles(u: UserId)
    ensures !Allowed(CrewSingleUserPermissions(), Member(u, {Staff}))
    ensures !Allowed(CrewSingleUserPermissions(), Member(u, {Manager}))
    ensures Allowed(CrewSingleUserPermissions(), Member(u, {Staff, Manager}))
  {
  }
}
