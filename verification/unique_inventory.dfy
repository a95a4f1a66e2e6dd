/**
 * A unique inventory: at most one inventory item per product, so the stock
 * available for a product is the quantity of that single item. The checks
 * here only read the inventory; being functions, they cannot change it.
 */
module UniqueInventory {
  import opened Wrappers
  import opened Quantities

  datatype ProductIdentifier = ProductIdentifier(id: string)

  /** A catalog product; only its identifier matters to the inventory. */
  datatype Product = Product(id: ProductIdentifier, name: string)

  datatype InventoryItemIdentifier = InventoryItemIdentifier(id: string)

  /** A UniqueInventoryItem: the stock on hand for one product. */
  datatype UniqueInventoryItem = UniqueInventoryItem(
    itemId: InventoryItemIdentifier,
    product: ProductIdentifier,
    quantity: Quantity)

  /**
   * The repository's content, indexed by the identifier of each item's product.
   * Keying by product makes "one item per product" hold by construction; the type
   * adds that every item is stored under its own product's identifier.
   */
  type Inventory = m: map<ProductIdentifier, UniqueInventoryItem>
    | forall p :: p in m ==> m[p].product == p
    witness map[]

  datatype OrderLine = OrderLine(productIdentifier: ProductIdentifier, quantity: Quantity)

  datatype Order = Order(orderLines: seq<OrderLine>)

  /** The query `select i ... where i.product.id = ?1`: the item of that product, if any. */
  function FindByProductIdentifier(inventory: Inventory, productIdentifier: ProductIdentifier)
    : (r: Option<UniqueInventoryItem>)
    ensures r.Some? <==> exists item :: item in inventory.Values && item.product == productIdentifier
    ensures r.Some? ==> r.value in inventory.Values && r.value.product == productIdentifier
  {
    if productIdentifier in inventory then Some(inventory[productIdentifier]) else None
  }

  /** findByProduct delegates to the lookup by the product's identifier. */
  function FindByProduct(inventory: Inventory, product: Product): (r: Option<UniqueInventoryItem>)
    ensures r == FindByProductIdentifier(inventory, product.id)
    ensures r.Some? ==> r.value.product == product.id
  {
    FindByProductIdentifier(inventory, product.id)
  }

  /** UniqueInventoryItem.hasSufficientQuantity: the item holds exactly or more than `quantity`. */
  predicate ItemHasSufficientQuantity(item: UniqueInventoryItem, quantity: Quantity)
  {
    IsLessThanOrEqualTo(quantity, item.quantity)
  }

  /**
   * hasSufficientQuantity(ProductIdentifier, Quantity): an existing item decides;
   * without an item only a zero or negative demand can be met.
   */
  function HasSufficientQuantity(inventory: Inventory, productIdentifier: ProductIdentifier, quantity: Quantity)
    : (r: bool)
    ensures productIdentifier in inventory ==> (r <==> quantity <= inventory[productIdentifier].quantity)
    ensures productIdentifier !in inventory ==> (r <==> quantity <= 0.0)
  {
    match FindByProductIdentifier(inventory, productIdentifier)
    case Some(item) => ItemHasSufficientQuantity(item, quantity)
    case None => IsZeroOrNegative(quantity)
  }

  /** The value the reduction holds for a product so far: Quantity.NONE until a line is seen. */
  function Current(demand: map<ProductIdentifier, Quantity>, p: ProductIdentifier): (r: Quantity)
  {
    if p in demand then demand[p] else NONE
  }

  /**
   * groupingBy(OrderLine::getProductIdentifier, reducing(NONE, OrderLine::getQuantity, add)),
   * folded over the lines in order: each line adds its quantity to its product's entry.
   * Exactly the products of the order get an entry.
   */
  function Demand(lines: seq<OrderLine>): (r: map<ProductIdentifier, Quantity>)
    ensures r.Keys == ProductsOf(lines)
  {
    if lines == [] then map[]
    else
      var demand := Demand(lines[..|lines| - 1]);
      var line := lines[|lines| - 1];
      assert lines == lines[..|lines| - 1] + [line];
      assert ProductsOf(lines) == ProductsOf(lines[..|lines| - 1]) + {line.productIdentifier};
      demand[line.productIdentifier := Add(Current(demand, line.productIdentifier), line.quantity)]
  }

  /** The products that occur in some line. */
  function ProductsOf(lines: seq<OrderLine>): (r: set<ProductIdentifier>)
  {
    set line | line in lines :: line.productIdentifier
  }

  /** Reference definition of a product's demand: the sum of the quantities of all its lines. */
  function SumFor(lines: seq<OrderLine>, p: ProductIdentifier): (r: Quantity)
  {
    if lines == [] then 0.0
    else (if lines[0].productIdentifier == p then lines[0].quantity else 0.0) + SumFor(lines[1..], p)
  }

  /** hasSufficientQuantity(Order): every aggregated per-product demand passes the single-product check. */
  function HasSufficientQuantityForOrder(inventory: Inventory, order: Order): (r: bool)
    ensures r <==> forall p :: p in ProductsOf(order.orderLines) ==>
                     if p in inventory then SumFor(order.orderLines, p) <= inventory[p].quantity
                     else SumFor(order.orderLines, p) <= 0.0
  {
    var demand := Demand(order.orderLines);
    DemandIsSumPerProduct(order.orderLines);
    forall p | p in demand :: HasSufficientQuantity(inventory, p, demand[p])
  }

  lemma {:induction false} SumForAppend(a: seq<OrderLine>, b: seq<OrderLine>, p: ProductIdentifier)
    ensures SumFor(a + b, p) == SumFor(a, p) + SumFor(b, p)
  {
    if a == [] {
      assert a + b == b;
    } else {
      assert (a + b)[1..] == a[1..] + b;
      SumForAppend(a[1..], b, p);
    }
  }

  /**
   * Each entry of the grouping is the total of all that product's lines, not
   * only the first, starting from Quantity.NONE.
   */
  lemma {:induction false} DemandIsSumPerProduct(lines: seq<OrderLine>)
    ensures forall p :: p in Demand(lines) ==> Demand(lines)[p] == SumFor(lines, p)
  {
    if lines != [] {
      var init, line := lines[..|lines| - 1], lines[|lines| - 1];
      assert lines == init + [line];
      DemandIsSumPerProduct(init);
      forall p | p in Demand(lines) ensures Demand(lines)[p] == SumFor(lines, p) {
        SumForAppend(init, [line], p);
        assert [line][1..] == [];
        if p == line.productIdentifier && p !in Demand(init) {
          SumForAbsent(init, p);
        }
      }
    }
  }

  /** A product that no line names has demand zero. */
  lemma {:induction false} SumForAbsent(lines: seq<OrderLine>, p: ProductIdentifier)
    requires p !in ProductsOf(lines)
    ensures SumFor(lines, p) == 0.0
  {
    if lines != [] {
      assert lines[0] in lines;
      assert ProductsOf(lines[1..]) <= ProductsOf(lines) by {
        forall q | q in ProductsOf(lines[1..]) ensures q in ProductsOf(lines) {
          var l :| l in lines[1..] && l.productIdentifier == q;
          assert l in lines;
        }
      }
      SumForAbsent(lines[1..], p);
    }
  }

  /** Reordering the lines does not change any product's total. */
  lemma {:induction false} SumForPermutation(a: seq<OrderLine>, b: seq<OrderLine>, p: ProductIdentifier)
    requires multiset(a) == multiset(b)
    ensures SumFor(a, p) == SumFor(b, p)
    decreases |a|
  {
    if a != [] {
      var x := a[0];
      assert x in multiset(b);
      var i :| 0 <= i < |b| && b[i] == x;
      var rest := b[..i] + b[i + 1..];
      assert b == b[..i] + [x] + b[i + 1..];
      assert a == [x] + a[1..];
      calc {
        multiset(a[1..]) + multiset{x};
        multiset(a);
        multiset(b[..i] + [x]) + multiset(b[i + 1..]);
        multiset(b[..i]) + multiset{x} + multiset(b[i + 1..]);
        multiset(rest) + multiset{x};
      }
      assert multiset(a[1..]) == multiset(a[1..]) + multiset{x} - multiset{x};
      assert multiset(rest) == multiset(rest) + multiset{x} - multiset{x};
      SumForPermutation(a[1..], rest, p);
      SumForAppend(b[..i] + [x], b[i + 1..], p);
      SumForAppend(b[..i], [x], p);
      SumForAppend(b[..i], b[i + 1..], p);
      assert [x][1..] == [];
    }
  }

  /** The demand map does not depend on the order of the lines. */
  lemma DemandIgnoresLineOrder(a: seq<OrderLine>, b: seq<OrderLine>)
    requires multiset(a) == multiset(b)
    ensures Demand(a) == Demand(b)
  {
    DemandIsSumPerProduct(a);
    DemandIsSumPerProduct(b);
    assert ProductsOf(a) == ProductsOf(b) by {
      forall q ensures q in ProductsOf(a) <==> q in ProductsOf(b) {
        if q in ProductsOf(a) {
          var l :| l in a && l.productIdentifier == q;
          assert l in multiset(b);
        }
        if q in ProductsOf(b) {
          var l :| l in b && l.productIdentifier == q;
          assert l in multiset(a);
        }
      }
    }
    forall p | p in Demand(a) ensures Demand(a)[p] == Demand(b)[p] {
      SumForPermutation(a, b, p);
    }
  }

  /** The order check gives the same answer for any permutation of the order's lines. */
  lemma OrderCheckIgnoresLineOrder(inventory: Inventory, o1: Order, o2: Order)
    requires multiset(o1.orderLines) == multiset(o2.orderLines)
    ensures HasSufficientQuantityForOrder(inventory, o1) == HasSufficientQuantityForOrder(inventory, o2)
  {
    DemandIgnoresLineOrder(o1.orderLines, o2.orderLines);
  }

  /** An order without lines needs nothing: allMatch over no entries holds. */
  lemma EmptyOrderIsSufficient(inventory: Inventory)
    ensures HasSufficientQuantityForOrder(inventory, Order([]))
  {
  }

  /** With no negative line quantities, a product's total is at least any one of its lines. */
  lemma {:induction false} LineAtMostSum(lines: seq<OrderLine>, line: OrderLine)
    requires forall l :: l in lines ==> l.quantity >= 0.0
    requires line in lines
    ensures line.quantity <= SumFor(lines, line.productIdentifier)
  {
    if lines[0] == line {
      SumForNonNegative(lines[1..], line.productIdentifier);
    } else {
      LineAtMostSum(lines[1..], line);
    }
  }

  lemma {:induction false} SumForNonNegative(lines: seq<OrderLine>, p: ProductIdentifier)
    requires forall l :: l in lines ==> l.quantity >= 0.0
    ensures SumFor(lines, p) >= 0.0
  {
    if lines != [] {
      assert lines[0] in lines;
      SumForNonNegative(lines[1..], p);
    }
  }

  /**
   * When no line asks for a negative quantity, a sufficient order has every single
   * line sufficient on its own.
   */
  lemma SufficientOrderCoversEachLine(inventory: Inventory, order: Order, line: OrderLine)
    requires forall l :: l in order.orderLines ==> l.quantity >= 0.0
    requires HasSufficientQuantityForOrder(inventory, order)
    requires line in order.orderLines
    ensures HasSufficientQuantity(inventory, line.productIdentifier, line.quantity)
  {
    LineAtMostSum(order.orderLines, line);
    assert line.productIdentifier in ProductsOf(order.orderLines);
  }

  /**
   * The converse fails: two lines of 6 for a product with 10 on hand each pass alone,
   * but together demand 12.
   */
  lemma PerLineCheckIsWeakerThanOrderCheck()
    ensures var p := ProductIdentifier("A");
            var inventory: Inventory := map[p := UniqueInventoryItem(InventoryItemIdentifier("i"), p, 10.0)];
            var order := Order([OrderLine(p, 6.0), OrderLine(p, 6.0)]);
            (forall l :: l in order.orderLines ==> HasSufficientQuantity(inventory, l.productIdentifier, l.quantity))
            && !HasSufficientQuantityForOrder(inventory, order)
  {
  }

  /** Two lines of the same product sum: [(p, 2), (p, 3)] groups to {p: 5}. */
  lemma DemandSumsSameProductLines(p: ProductIdentifier)
    ensures Demand([OrderLine(p, 2.0), OrderLine(p, 3.0)]) == map[p := 5.0]
  {
  }

  /** Inventory {A: 10, B: 0} and lines [(A, 4), (A, 3), (B, 0)]: demand {A: 7, B: 0} is met. */
  lemma MixedOrderExample()
    ensures var a, b := ProductIdentifier("A"), ProductIdentifier("B");
            var inventory: Inventory := map[a := UniqueInventoryItem(InventoryItemIdentifier("1"), a, 10.0),
                                            b := UniqueInventoryItem(InventoryItemIdentifier("2"), b, 0.0)];
            HasSufficientQuantityForOrder(inventory, Order([OrderLine(a, 4.0), OrderLine(a, 3.0), OrderLine(b, 0.0)]))
  {
    var a, b := ProductIdentifier("A"), ProductIdentifier("B");
    var lines := [OrderLine(a, 4.0), OrderLine(a, 3.0), OrderLine(b, 0.0)];
    assert ProductsOf(lines) == {a, b} by {
      assert lines[0] in lines && lines[2] in lines;
    }
    var last := lines[2..];
    assert last == [OrderLine(b, 0.0)] && last[1..] == [];
    assert lines[1..][1..] == last;
    assert SumFor(last, a) == 0.0 && SumFor(last, b) == 0.0;
    assert SumFor(lines[1..], a) == 3.0 && SumFor(lines[1..], b) == 0.0;
    assert SumFor(lines, a) == 7.0;
    assert SumFor(lines, b) == 0.0;
  }
}
