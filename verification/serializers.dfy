/** The input rules and derived fields of the serializers the order lifecycle uses. */
module Serializers {
  import opened Common
  import opened Tables
  import opened Pricing
  import opened OrderTable

  /** `AddToCartSerializer`: both `menuitem` and `quantity` are required; a request
      missing either is refused with an error for each missing field. */
  function ValidateAddToCart(data: RequestData): (r: Result<(ItemId, int), set<string>>)
    ensures r.Success? <==> "menuitem" in data && "quantity" in data
    ensures r.Success? ==> r.value == (data["menuitem"], data["quantity"])
    ensures r.Failure? ==> forall f :: f in r.error <==> (f == "menuitem" || f == "quantity") && f !in data
  {
    var missing := (if "menuitem" in data then {} else {"menuitem"})
                 + (if "quantity" in data then {} else {"quantity"});
    if missing == {} then Success((data["menuitem"], data["quantity"])) else Failure(missing)
  }

  /** `RemoveFromCartSerializer`: `menuitem` is required. */
  function ValidateRemoveFromCart(data: RequestData): (r: Result<ItemId, set<string>>)
    ensures r.Success? <==> "menuitem" in data
    ensures r.Success? ==> r.value == data["menuitem"]
    ensures r.Failure? ==> r.error == {"menuitem"}
  {
    if "menuitem" in data then Success(data["menuitem"]) else Failure({"menuitem"})
  }

  /** `OrderPutSerializer`: the only field of the assign-crew input is `delivery_crew`. */
  function OrderPutField(data: RequestData): (r: Option<UserId>)
    ensures r.Some? <==> "delivery_crew" in data
    ensures r.Some? ==> r.value == data["delivery_crew"]
  {
    if "delivery_crew" in data then Some(data["delivery_crew"]) else None
  }

  /** The add-to-cart rule reads nothing but its two fields. */
  lemma AddToCartReadsOnlyItsFields(data: RequestData, k: string, v: int)
    requires k != "menuitem" && k != "quantity"
    ensures ValidateAddToCart(data[k := v]) == ValidateAddToCart(data)
  {
  }

  /** The assign-crew input reads nothing but `delivery_crew`. */
  lemma OrderPutReadsOnlyCrew(data: RequestData, k: string, v: int)
    requires k != "delivery_crew"
    ensures OrderPutField(data[k := v]) == OrderPutField(data)
  {
  }

  const CategoryTaken := "This category already exists"
  const MenuTitleTaken := "This title already exists"

  /** A `UniqueValidator` on a title: refused with `message` exactly when another row
      already has that title. */
  function UniqueTitle(taken: set<string>, title: string, message: string): (r: Result<string, string>)
    ensures r.Failure? <==> title in taken
    ensures r.Failure? ==> r.error == message
    ensures r.Success? ==> r.value == title
  {
    if title in taken then Failure(message) else Success(title)
  }

  /** `CategorySerializer`: a new category's title must not be in use. */
  function ValidateCategory(categories: map<CategoryId, string>, title: string): (r: Result<string, string>)
    ensures r.Failure? <==> title in categories.Values
    ensures r.Failure? ==> r.error == CategoryTaken
  {
    UniqueTitle(categories.Values, title, CategoryTaken)
  }

  /** `MenuItemSerializer`: the title must not be in use and the category, given by its
      title, must exist. Every failed rule contributes its message. */
  function ValidateMenuItem(menu: map<ItemId, MenuItem>, categories: map<CategoryId, string>,
                            title: string, categoryTitle: string): (r: set<string>)
    ensures r == {} <==> (forall i :: i in menu ==> menu[i].title != title)
                         && exists c :: c in categories && categories[c] == categoryTitle
    ensures MenuTitleTaken in r <==> exists i :: i in menu && menu[i].title == title
    ensures UnknownCategory(categoryTitle) in r <==> forall c :: c in categories ==> categories[c] != categoryTitle
  {
    var titles := set i | i in menu :: menu[i].title;
    var titleErrors := match UniqueTitle(titles, title, MenuTitleTaken)
      case Failure(e) => {e}
      case Success(_) => {};
    var categoryErrors := if exists c :: c in categories && categories[c] == categoryTitle then {} else {UnknownCategory(categoryTitle)};
    assert UnknownCategory(categoryTitle)[0] != MenuTitleTaken[0];
    titleErrors + categoryErrors
  }

  /** The error `SlugRelatedField` reports for a category title no category has. */
  function UnknownCategory(categoryTitle: string): (message: string)
    ensures |message| == 18 + |categoryTitle| + 16
    ensures message[..18] == "Object with title=" && message[18 + |categoryTitle|..] == " does not exist."
    ensures message[18..18 + |categoryTitle|] == categoryTitle
  {
    "Object with title=" + categoryTitle + " does not exist."
  }

  /** The menu item as the order detail nests it. */
  datatype ItemSummary = ItemSummary(title: string, price: Cents)

  /** One line of `SingleOrderSerializer`. */
  datatype DetailLine = DetailLine(quantity: int, menuitem: ItemSummary, unitPrice: Cents, price: Cents, name: string)

  /** The detail of one order line. `unit_price`, `name` and `price` are read from the
      menu item as it is now, not from anything stored with the order. */
  function DetailOf(x: OrderItem, item: MenuItem): (d: DetailLine)
    ensures d.quantity == x.quantity
    ensures d.unitPrice == item.price && d.name == item.title
    ensures d.menuitem == ItemSummary(item.title, item.price)
    ensures d.price == LineTotal(x.quantity, d.unitPrice)
  {
    DetailLine(x.quantity, ItemSummary(item.title, item.price), item.price, x.quantity * item.price, item.title)
  }

  /** The details of a run of order lines, in order. */
  function Details(items: seq<OrderItem>, menu: map<ItemId, MenuItem>): (r: seq<DetailLine>)
    requires forall x :: x in items ==> x.menuitem in menu
    ensures |r| == |items|
    ensures forall j :: 0 <= j < |items| ==> r[j] == DetailOf(items[j], menu[items[j].menuitem])
  {
    if items == [] then []
    else [DetailOf(items[0], menu[items[0].menuitem])] + Details(items[1..], menu)
  }

  /** The GET response of the single-order view: the details of the lines of order `id`. */
  function OrderDetail(items: seq<OrderItem>, menu: map<ItemId, MenuItem>, id: OrderId): (r: seq<DetailLine>)
    requires forall x :: x in items ==> x.menuitem in menu
  {
    Details(ItemsOf(items, id), menu)
  }

  /** The sum of the `price` column of a detail listing. */
  function DetailSum(ds: seq<DetailLine>): Cents {
    if ds == [] then 0 else ds[0].price + DetailSum(ds[1..])
  }

  /** While every menu price still equals the unit price snapshotted in the cart, the
      detail of the lines placed for `lines` adds up to the sum of the lines' totals. */
  lemma {:induction false} DetailSumMatchesLineTotals(id: OrderId, lines: seq<CartLine>, menu: map<ItemId, MenuItem>)
    requires forall l :: l in lines ==> l.menuitem in menu && menu[l.menuitem].price == l.unitPrice
    ensures forall x :: x in ItemsFor(id, lines) ==> x.menuitem in menu
    ensures DetailSum(Details(ItemsFor(id, lines), menu)) == SumLineTotals(lines)
  {
    var its := ItemsFor(id, lines);
    forall x | x in its ensures x.menuitem in menu {
      var i :| 0 <= i < |its| && its[i] == x;
      assert lines[i] in lines;
    }
    if lines != [] {
      DetailSumMatchesLineTotals(id, lines[1..], menu);
      assert its[1..] == ItemsFor(id, lines[1..]);
      assert lines[0] in lines;
    }
  }

  /** Under the same condition the detail adds up to the order's stored total. */
  lemma DetailSumMatchesStoredTotal(id: OrderId, lines: seq<CartLine>, menu: map<ItemId, MenuItem>)
    requires forall l :: l in lines ==> l.menuitem in menu && menu[l.menuitem].price == l.unitPrice && WellPriced(l)
    ensures forall x :: x in ItemsFor(id, lines) ==> x.menuitem in menu
    ensures DetailSum(Details(ItemsFor(id, lines), menu)) == SumPrices(lines)
  {
    DetailSumMatchesLineTotals(id, lines, menu);
    StoredPricesMatchLineTotals(lines);
  }
}
