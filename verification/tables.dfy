/** The rows of the persistent tables the order lifecycle works on. */
module Tables {
  import opened Common

  /** A `User` as far as this core looks at it: its login name and its two flags.
      `isStaff` is what `IsAdminUser` tests; `isSuperuser` is a separate flag. */
  datatype Account = Account(username: string, isStaff: bool, isSuperuser: bool)

  datatype MenuItem = MenuItem(title: string, price: Cents, featured: bool, category: CategoryId)

  /** A cart line: `unitPrice` is the menu price when the line was added and
      `price` is the stored line price. */
  datatype CartLine = CartLine(user: UserId, menuitem: ItemId, quantity: int, unitPrice: Cents, price: Cents)

  /** An order; `status` is false while pending and true once delivered. */
  datatype Order = Order(user: UserId, total: Cents, status: bool, deliveryCrew: Option<UserId>, date: Date)

  /** An order line; it stores no price of its own. */
  datatype OrderItem = OrderItem(order: OrderId, menuitem: ItemId, quantity: int)
}
