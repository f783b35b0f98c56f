/** Runs of the store from its start-up state, each a client of the store
    whose outcome follows from the contracts of the commands alone. */
module Scenarios {
  import opened Results
  import opened Sequences
  import opened Types
  import opened Pricing
  import opened Store

  /** The customer every scenario orders for. */
  const Customer := CustomerDetails("Test User", "test@example.com", "123 Test St", "Testville",
                                    "12345", "1111222233334444", "12/25", "123")

  /** The code suffix the second order's fresh uuid yields. */
  const Suffix := "0A1B2C3D"

  /** The suffix is upper-case hex and its code is new next to SAVE15. */
  lemma SuffixUsable()
    ensures IsSuffix(Suffix)
    ensures Lower(Save15.code) != Lower(Save10Prefix + Suffix)
  {
    assert |Lower(Save15.code)| == 6 && |Lower(Save10Prefix + Suffix)| == 15;
  }

  /** Every catalog product is found by its own id. */
  lemma CatalogFinds(k: nat)
    requires k < |Catalog|
    ensures FindProduct(Catalog, Catalog[k].id) == Some(Catalog[k])
  {
    CatalogHasShape();
  }

  /** The start-up code, looked up in any case. */
  lemma Save15Usable(codes: seq<DiscountCode>)
    requires |codes| >= 1 && codes[0] == Save15
    ensures UsableIndex(codes, "SAVE15") == Some(0)
    ensures UsableIndex(codes, "save15") == Some(0)
  {
    assert Lower("SAVE15") == "save15";
    assert Lower("save15") == "save15";
  }

  /** A cart of one line costs that line's total. */
  lemma SubtotalOfOne(l: CartItem)
    ensures Subtotal([l]) == l.price * l.quantity as real
  {
    assert [l][..0] == [];
    assert Sum([l], LineTotal) == Sum([], LineTotal) + LineTotal(l);
  }

  /** One mug under a 15% code spelled like SAVE15: 6.30 off 42, 35.70 to
      pay, whether or not the code is marked used. */
  lemma MugWithSave15View(d: DiscountCode)
    requires d.code == Save15.code && d.percentage == 15
    ensures View([LineOf(0, 1)], Some(d)) == Cart([LineOf(0, 1)], 42.0, 6.3, 35.7, Some(Save15.code))
  {
    SubtotalOfOne(LineOf(0, 1));
  }

  /** One mug without a code: 42 to pay. */
  lemma MugView()
    ensures View([LineOf(0, 1)], None) == Cart([LineOf(0, 1)], 42.0, 0.0, 42.0, None)
  {
    SubtotalOfOne(LineOf(0, 1));
  }

  /** Two T-shirts under SAVE15: 16.50 off 110, 93.50 to pay. */
  lemma ShirtsWithSave15View()
    ensures View([LineOf(1, 2)], Some(Save15)) == Cart([LineOf(1, 2)], 110.0, 16.5, 93.5, Some(Save15.code))
  {
    SubtotalOfOne(LineOf(1, 2));
  }

  /** Two orders: the sums the admin view reports. */
  lemma StatsOfTwo(a: Order, b: Order)
    ensures Sum([a, b], OrderTotal) == a.total + b.total
    ensures Sum([a, b], OrderDiscount) == a.discountAmount + b.discountAmount
    ensures Count([a, b], OrderQuantity) == OrderQuantity(a) + OrderQuantity(b)
  {
    assert [a, b][..1] == [a] && [a][..0] == [];
    assert Sum([a, b], OrderTotal) == Sum([a], OrderTotal) + OrderTotal(b);
    assert Sum([a], OrderTotal) == Sum([], OrderTotal) + OrderTotal(a);
    assert Sum([a, b], OrderDiscount) == Sum([a], OrderDiscount) + OrderDiscount(b);
    assert Sum([a], OrderDiscount) == Sum([], OrderDiscount) + OrderDiscount(a);
    assert Count([a, b], OrderQuantity) == Count([a], OrderQuantity) + OrderQuantity(b);
    assert Count([a], OrderQuantity) == Count([], OrderQuantity) + OrderQuantity(a);
  }

  /** An order of one line holds that line's units. */
  lemma QuantityOfOne(o: Order, l: CartItem)
    requires o.items == [l]
    ensures OrderQuantity(o) == l.quantity
  {
    assert [l][..0] == [];
    assert Count([l], LineQuantity) == Count([], LineQuantity) + LineQuantity(l);
  }

  /** The line `quantity` units of the `k`-th product make. */
  function LineOf(k: nat, quantity: int): CartItem
    requires k < |Catalog|
  {
    NewLine(Catalog[k], quantity)
  }

  /** A new store whose cart holds `quantity` of the `k`-th product. */
  method StoreWith(k: nat, quantity: int) returns (store: CouponCartStore)
    requires k < |Catalog|
    ensures fresh(store) && store.Valid() && store.products == Catalog
    ensures store.cart == [LineOf(k, quantity)] && store.applied == None
    ensures store.orders == [] && store.discountCodes == [Save15]
  {
    store := new CouponCartStore();
    CatalogFinds(k);
    var added := store.AddToCart(Catalog[k].id, quantity);
  }

  /** Empty the cart, then put `quantity` of the `k`-th product in it. */
  method ClearThenAdd(store: CouponCartStore, k: nat, quantity: int)
    requires k < |Catalog| && store.Valid() && store.products == Catalog
    modifies store
    ensures store.Valid() && store.products == Catalog
    ensures store.cart == [LineOf(k, quantity)] && store.applied == None
    ensures store.orders == old(store.orders) && store.discountCodes == old(store.discountCodes)
  {
    var cleared := store.ClearCart();
    CatalogFinds(k);
    var added := store.AddToCart(Catalog[k].id, quantity);
  }

  /** Adding 1 then 2 mugs gives one line of 3; removing one unit leaves
      one line of 2, and removing from a line of 1 deletes it. */
  lemma MergeThenDecrement()
    ensures AddLine([], Catalog[0], 1) == [LineOf(0, 1)]
    ensures AddLine([LineOf(0, 1)], Catalog[0], 2) == [LineOf(0, 3)]
    ensures LineIndex([LineOf(0, 3)], "prod_1") == Some(0)
    ensures RemoveOne([LineOf(0, 3)], "prod_1") == [LineOf(0, 2)]
    ensures LineIndex([LineOf(0, 1)], "prod_1") == Some(0)
    ensures RemoveOne([LineOf(0, 1)], "prod_1") == []
  {
    assert LineIndex([LineOf(0, 1)], "prod_1") == Some(0);
    assert LineIndex([LineOf(0, 3)], "prod_1") == Some(0);
  }

  /** One mug at 42 with SAVE15 applied: 6.30 off, 35.70 to pay. */
  method SaveFifteenOnOneMug() returns (c: Cart)
    ensures c.appliedDiscountCode == Some("SAVE15")
    ensures c.subtotal == 42.0 && c.discountAmount == 6.3 && c.total == 35.7
  {
    var store := StoreWith(0, 1);
    Save15Usable(store.discountCodes);
    var r := store.ApplyDiscount("save15");
    MugWithSave15View(Save15);
    c := store.GetCart();
  }

  /** A new store in which one mug was ordered with SAVE15 applied: the
      order pays 35.70, issues no code and consumes SAVE15, while the cart
      and the applied code are left as they were. */
  method OrderMugWithSave15() returns (store: CouponCartStore, placed: Placement)
    ensures fresh(store) && store.Valid() && store.products == Catalog
    ensures store.cart == [LineOf(0, 1)] && store.applied == Some(0)
    ensures store.discountCodes == [Save15.(isUsed := true)]
    ensures store.orders == [placed.order] && placed.order.id == "mock-uuid-1"
    ensures placed.order.discountAmount == 6.3 && placed.order.total == 35.7
    ensures placed.newDiscount.None?
  {
    store := StoreWith(0, 1);
    Save15Usable(store.discountCodes);
    var r := store.ApplyDiscount("SAVE15");
    MugWithSave15View(Save15);
    var result := store.CreateOrder(Customer, "mock-uuid-1", 0, "");
    placed := result.value;
  }

  /** Once an order has consumed SAVE15, applying it again fails, even
      after the cart was cleared. */
  method UsedCodeIsRejected() returns (r: Result<Cart, StoreError>)
    ensures r == Err(InvalidOrUsedCode)
  {
    var store, placed := OrderMugWithSave15();
    ClearThenAdd(store, 0, 1);
    UsedCodeRejected(store.discountCodes, 0, "SAVE15");
    r := store.ApplyDiscount("SAVE15");
  }

  /** Without clearing, a second order still gets the used code's discount:
      the code stays applied and the view does not look at its use. */
  method DiscountOutlivesItsUse() returns (first: Order, second: Order)
    ensures first.discountAmount == 6.3 && second.discountAmount == 6.3
    ensures second.appliedDiscountCode == Some("SAVE15")
  {
    var store, placed := OrderMugWithSave15();
    first := placed.order;
    MugWithSave15View(Save15.(isUsed := true));
    SuffixUsable();
    var next := store.CreateOrder(Customer, "mock-uuid-2", 1, Suffix);
    second := next.value.order;
  }

  /** The second order issues a 10% SAVE10- code that the admin view
      lists. */
  method SecondOrderEarnsCode() returns (second: DiscountCode, listed: seq<DiscountCode>)
    ensures second.percentage == 10 && !second.isUsed
    ensures second.code == Save10Prefix + Suffix
    ensures second in listed
  {
    var store, first := OrderOneMug();
    ClearThenAdd(store, 1, 1);
    SuffixUsable();
    var next := store.CreateOrder(Customer, "mock-uuid-2", 1, Suffix);
    assert |store.orders| == 2;
    second := next.value.newDiscount.value;
    listed := store.GetAdminStats().discountCodes;
    assert listed[0] == second;
  }

  /** A new store in which one mug was ordered without a code. */
  method OrderOneMug() returns (store: CouponCartStore, order: Order)
    ensures fresh(store) && store.Valid() && store.products == Catalog
    ensures store.orders == [order] && order.id == "mock-uuid-1"
    ensures store.discountCodes == [Save15]
    ensures order.total == 42.0 && order.discountAmount == 0.0 && OrderQuantity(order) == 1
  {
    store := StoreWith(0, 1);
    MugView();
    var placed := store.CreateOrder(Customer, "mock-uuid-1", 0, "");
    order := placed.value.order;
    QuantityOfOne(order, LineOf(0, 1));
  }

  /** Empty the cart, put two T-shirts in it and apply SAVE15. */
  method TwoShirtsWithSave15(store: CouponCartStore)
    requires store.Valid() && store.products == Catalog && store.discountCodes == [Save15]
    modifies store
    ensures store.Valid() && store.products == Catalog
    ensures store.cart == [LineOf(1, 2)] && store.applied == Some(0)
    ensures store.orders == old(store.orders) && store.discountCodes == [Save15]
  {
    ClearThenAdd(store, 1, 2);
    Save15Usable(store.discountCodes);
    var applied := store.ApplyDiscount("SAVE15");
  }

  /** Two T-shirts at 55 with SAVE15, ordered as the second order. */
  method OrderTwoShirtsWithSave15(store: CouponCartStore) returns (order: Order)
    requires store.Valid() && store.products == Catalog
    requires |store.orders| == 1 && store.orders[0].id != "mock-uuid-2"
    requires store.discountCodes == [Save15]
    modifies store
    ensures store.Valid() && store.orders == old(store.orders) + [order]
    ensures order.total == 93.5 && order.discountAmount == 16.5 && OrderQuantity(order) == 2
  {
    TwoShirtsWithSave15(store);
    ShirtsWithSave15View();
    SuffixUsable();
    var placed := store.CreateOrder(Customer, "mock-uuid-2", 1, Suffix);
    order := placed.value.order;
    QuantityOfOne(order, LineOf(1, 2));
  }

  /** A mug, then two T-shirts with SAVE15: 3 units sold, 42 + 93.50 taken
      and 16.50 given as discount. */
  method AdminStatsOfTwoOrders() returns (stats: AdminStats)
    ensures stats.itemCount == 3
    ensures stats.totalAmount == 135.5 && stats.totalDiscountAmount == 16.5
  {
    var store, first := OrderOneMug();
    var second := OrderTwoShirtsWithSave15(store);
    assert store.orders == [first, second];
    StatsOfTwo(first, second);
    stats := store.GetAdminStats();
  }
}
