/** The shopping cart: an ordered list of lines, each a product with one
    configuration, a quantity and the line's total price. Lines are merged
    on (product id, configuration); increment, decrement and remove act on
    every line of a product id. A price that cannot be computed aborts the
    whole update and leaves the cart as it was. */
module CartStore {
  import opened Wrappers
  import opened TotalPrice

  /** The four chosen labels of a cart line. Two configurations are the same
      when all four fields are equal. */
  datatype NodeConfig = NodeConfig(software: string, ram: string, storage: string, processor: string)

  /** A cart line: the product's id and the part of the product the price
      calculator reads, the configuration, the quantity and the line total. */
  datatype CartLine = CartLine(id: string, product: Product, config: NodeConfig, quantity: int, totalPrice: int)

  /** The selection the calculator is given for a configuration: all four
      labels and no quantity. */
  function Selection(c: NodeConfig): (r: SelectedOptions) {
    SelectedOptions(Some(c.software), Some(c.ram), Some(c.storage), Some(c.processor), None)
  }

  /** The price of one unit of `product` configured as `c`. */
  function UnitPrice(product: Product, c: NodeConfig): (r: Result<int, PriceError>) {
    TotalPriceOf(product, Selection(c))
  }

  /** The cart's invariant: every line has a positive quantity. */
  predicate AllPositive(items: seq<CartLine>) {
    forall j :: 0 <= j < |items| ==> items[j].quantity >= 1
  }

  // ---------------------------------------------------------------------
  // The folds

  /** `items.reduce((total, item) => total + item.totalPrice, 0)` */
  function SumTotals(items: seq<CartLine>): (r: int) {
    if items == [] then 0 else items[0].totalPrice + SumTotals(items[1..])
  }

  /** `items.reduce((count, item) => count + item.quantity, 0)` */
  function SumQuantities(items: seq<CartLine>): (r: int) {
    if items == [] then 0 else items[0].quantity + SumQuantities(items[1..])
  }

  lemma {:induction false} SumsAppend(a: seq<CartLine>, b: seq<CartLine>)
    ensures SumTotals(a + b) == SumTotals(a) + SumTotals(b)
    ensures SumQuantities(a + b) == SumQuantities(a) + SumQuantities(b)
  {
    if a == [] {
      assert a + b == b;
    } else {
      assert (a + b)[1..] == a[1..] + b;
      SumsAppend(a[1..], b);
    }
  }

  /** A cart whose lines all have positive quantities counts at least one
      item per line. */
  lemma {:induction false} ItemCountAtLeastLines(items: seq<CartLine>)
    requires AllPositive(items)
    ensures SumQuantities(items) >= |items|
  {
    if items != [] {
      ItemCountAtLeastLines(items[1..]);
    }
  }

  /** Replacing one line changes the sums by the difference of the lines. */
  lemma {:induction false} SumsUpdate(items: seq<CartLine>, i: nat, line: CartLine)
    requires i < |items|
    ensures SumTotals(items[i := line]) == SumTotals(items) - items[i].totalPrice + line.totalPrice
    ensures SumQuantities(items[i := line]) == SumQuantities(items) - items[i].quantity + line.quantity
  {
    if i > 0 {
      assert items[i := line][1..] == items[1..][i - 1 := line];
      SumsUpdate(items[1..], i - 1, line);
    }
  }

  // ---------------------------------------------------------------------
  // addItem

  /** The first line with this product id and configuration. */
  function FindLine(items: seq<CartLine>, id: string, config: NodeConfig): (r: Option<nat>)
    ensures r.Some? ==> r.value < |items| && items[r.value].id == id && items[r.value].config == config
    ensures r.Some? ==> forall j :: 0 <= j < r.value ==> !(items[j].id == id && items[j].config == config)
    ensures r.None? <==> forall j :: 0 <= j < |items| ==> !(items[j].id == id && items[j].config == config)
  {
    if items == [] then None
    else if items[0].id == id && items[0].config == config then Some(0)
    else match FindLine(items[1..], id, config)
      case None => None
      case Some(i) => Some(i + 1)
  }

  /** The new item list `addItem(product, config)` sets. */
  function AddedItems(items: seq<CartLine>, id: string, product: Product, config: NodeConfig)
    : (r: Result<seq<CartLine>, PriceError>)
    ensures r.Ok? <==> UnitPrice(product, config).Ok?
    ensures r.Ok? ==> |r.value| == if FindLine(items, id, config).None? then |items| + 1 else |items|
  {
    match UnitPrice(product, config)
    case Err(e) => Err(e)
    case Ok(unit) =>
      match FindLine(items, id, config)
      case Some(i) =>
        var q := items[i].quantity + 1;
        Ok(items[i := items[i].(quantity := q, totalPrice := unit * q)])
      case None => Ok(items + [CartLine(id, product, config, 1, unit)])
  }

  /** Adding a (product id, configuration) pair already in the cart raises
      that line's quantity by one and reprices it; the other lines are
      untouched. A new pair is appended as one line of quantity 1 priced at
      the unit price. Either way the item count grows by exactly one. */
  lemma AddItemEffect(items: seq<CartLine>, id: string, product: Product, config: NodeConfig)
    requires UnitPrice(product, config).Ok?
    ensures AddedItems(items, id, product, config).Ok?
    ensures var r := AddedItems(items, id, product, config).value;
      var unit := UnitPrice(product, config).value;
      match FindLine(items, id, config)
      case Some(i) =>
        |r| == |items| && r[i].quantity == items[i].quantity + 1 &&
        r[i].totalPrice == unit * (items[i].quantity + 1) &&
        r[i].id == id && r[i].config == config &&
        forall j :: 0 <= j < |items| && j != i ==> r[j] == items[j]
      case None =>
        |r| == |items| + 1 && r[..|items|] == items &&
        r[|items|] == CartLine(id, product, config, 1, unit)
    ensures SumQuantities(AddedItems(items, id, product, config).value) == SumQuantities(items) + 1
  {
    var unit := UnitPrice(product, config).value;
    match FindLine(items, id, config)
    case Some(i) =>
      var q := items[i].quantity + 1;
      SumsUpdate(items, i, items[i].(quantity := q, totalPrice := unit * q));
    case None =>
      SumsAppend(items, [CartLine(id, product, config, 1, unit)]);
      assert SumQuantities([CartLine(id, product, config, 1, unit)]) == 1;
  }

  /** Adding the same pair twice to an empty cart gives one line of quantity
      2 whose total is twice the unit price. */
  lemma AddTwice(id: string, product: Product, config: NodeConfig)
    requires UnitPrice(product, config).Ok?
    ensures var once := AddedItems([], id, product, config);
      once.Ok? && AddedItems(once.value, id, product, config) ==
        Ok([CartLine(id, product, config, 2, 2 * UnitPrice(product, config).value)])
  {
    var unit := UnitPrice(product, config).value;
    var once := [CartLine(id, product, config, 1, unit)];
    assert [] + once == once;
    assert AddedItems([], id, product, config) == Ok(once);
    assert FindLine(once, id, config) == Some(0);
    assert once[0 := once[0].(quantity := 2, totalPrice := unit * 2)]
        == [CartLine(id, product, config, 2, 2 * unit)];
  }

  // ---------------------------------------------------------------------
  // removeItem

  /** `items.filter(item => item.id !== id)` */
  function WithoutId(items: seq<CartLine>, id: string): (r: seq<CartLine>)
    ensures |r| <= |items|
    ensures forall j :: 0 <= j < |r| ==> r[j].id != id && r[j] in items
    ensures forall j :: 0 <= j < |items| && items[j].id != id ==> items[j] in r
  {
    if items == [] then []
    else if items[0].id == id then WithoutId(items[1..], id)
    else [items[0]] + WithoutId(items[1..], id)
  }

  /** The lines of `items` with this id, in order. */
  function WithId(items: seq<CartLine>, id: string): (r: seq<CartLine>) {
    if items == [] then []
    else if items[0].id == id then [items[0]] + WithId(items[1..], id)
    else WithId(items[1..], id)
  }

  /** Removing keeps the order of what is left: it distributes over
      concatenation, and a cart without that id is left as it is. */
  lemma {:induction false} WithoutIdOrder(a: seq<CartLine>, b: seq<CartLine>, id: string)
    ensures WithoutId(a + b, id) == WithoutId(a, id) + WithoutId(b, id)
  {
    if a == [] {
      assert a + b == b;
    } else {
      var x, tail := a[0], a[1..];
      assert a + b == [x] + (tail + b);
      WithoutIdOrder(tail, b, id);
      WithoutIdCons(x, tail + b, id);
      WithoutIdCons(x, tail, id);
      ConsAssoc(x, WithoutId(tail, id), WithoutId(b, id));
    }
  }

  /** The filter on a list with a head line. */
  lemma WithoutIdCons(x: CartLine, rest: seq<CartLine>, id: string)
    ensures WithoutId([x] + rest, id) == if x.id == id then WithoutId(rest, id) else [x] + WithoutId(rest, id)
  {
    assert ([x] + rest)[0] == x;
    assert ([x] + rest)[1..] == rest;
  }

  lemma ConsAssoc<T>(x: T, s: seq<T>, t: seq<T>)
    ensures [x] + (s + t) == ([x] + s) + t
  {
  }

  lemma {:induction false} WithoutAbsentId(items: seq<CartLine>, id: string)
    requires forall j :: 0 <= j < |items| ==> items[j].id != id
    ensures WithoutId(items, id) == items
  {
    if items != [] {
      WithoutAbsentId(items[1..], id);
      assert items == [items[0]] + items[1..];
    }
  }

  /** The total and the item count after a removal are those of the cart
      less the removed lines, whatever their quantities. */
  lemma {:induction false} RemoveSplitsSums(items: seq<CartLine>, id: string)
    ensures SumTotals(items) == SumTotals(WithoutId(items, id)) + SumTotals(WithId(items, id))
    ensures SumQuantities(items) == SumQuantities(WithoutId(items, id)) + SumQuantities(WithId(items, id))
  {
    if items != [] {
      RemoveSplitsSums(items[1..], id);
      if items[0].id == id {
        assert WithId(items, id) == [items[0]] + WithId(items[1..], id);
        SumsAppend([items[0]], WithId(items[1..], id));
      } else {
        SumsAppend([items[0]], WithoutId(items[1..], id));
      }
    }
  }

  // ---------------------------------------------------------------------
  // incrementQuantity and decrementQuantity

  /** Line `line` with its quantity moved by `delta` and repriced. */
  function Repriced(line: CartLine, delta: int): (r: Result<CartLine, PriceError>) {
    match UnitPrice(line.product, line.config)
    case Err(e) => Err(e)
    case Ok(unit) =>
      var q := line.quantity + delta;
      Ok(line.(quantity := q, totalPrice := unit * q))
  }

  /** `items.map(item => item.id === id ? repriced : item)`; the first line
      whose price fails aborts the map. */
  function MapMatching(items: seq<CartLine>, id: string, delta: int): (r: Result<seq<CartLine>, PriceError>)
    ensures r.Ok? <==> forall j :: 0 <= j < |items| && items[j].id == id ==>
      UnitPrice(items[j].product, items[j].config).Ok?
    ensures r.Ok? ==> |r.value| == |items|
    ensures r.Ok? ==> forall j :: 0 <= j < |items| ==>
      r.value[j] == (if items[j].id == id then Repriced(items[j], delta).value else items[j])
  {
    if items == [] then Ok([])
    else
      var head := if items[0].id == id then Repriced(items[0], delta) else Ok(items[0]);
      match head
      case Err(e) => Err(e)
      case Ok(line) =>
        match MapMatching(items[1..], id, delta)
        case Err(e) => Err(e)
        case Ok(rest) => Ok([line] + rest)
  }

  /** `.filter(item => item.quantity > 0)` */
  function KeepPositive(items: seq<CartLine>): (r: seq<CartLine>)
    ensures AllPositive(r)
    ensures |r| <= |items|
    ensures forall j :: 0 <= j < |items| && items[j].quantity > 0 ==> items[j] in r
    ensures forall j :: 0 <= j < |r| ==> r[j] in items
  {
    if items == [] then []
    else if items[0].quantity > 0 then [items[0]] + KeepPositive(items[1..])
    else KeepPositive(items[1..])
  }

  /** The filter keeps the order and the multiplicity of the kept lines: it
      distributes over concatenation, so each line stays where it was
      relative to the others, and a cart whose lines are all positive is
      kept whole. */
  lemma {:induction false} KeepPositiveOrder(a: seq<CartLine>, b: seq<CartLine>)
    ensures KeepPositive(a + b) == KeepPositive(a) + KeepPositive(b)
  {
    if a == [] {
      assert a + b == b;
    } else {
      assert (a + b)[0] == a[0];
      assert (a + b)[1..] == a[1..] + b;
      KeepPositiveOrder(a[1..], b);
    }
  }

  lemma {:induction false} KeepPositiveOfPositive(items: seq<CartLine>)
    requires AllPositive(items)
    ensures KeepPositive(items) == items
  {
    if items != [] {
      assert items[0].quantity > 0;
      KeepPositiveOfPositive(items[1..]);
      assert items == [items[0]] + items[1..];
    }
  }

  /** Each line with a positive quantity is kept as often as it occurs, and
      the others are dropped. */
  lemma {:induction false} KeepPositiveCounts(items: seq<CartLine>, x: CartLine)
    ensures multiset(KeepPositive(items))[x] == if x.quantity > 0 then multiset(items)[x] else 0
  {
    if items != [] {
      KeepPositiveCounts(items[1..], x);
      assert items == [items[0]] + items[1..];
      assert multiset(items) == multiset([items[0]]) + multiset(items[1..]);
      if items[0].quantity > 0 {
        assert KeepPositive(items) == [items[0]] + KeepPositive(items[1..]);
        assert multiset(KeepPositive(items)) == multiset([items[0]]) + multiset(KeepPositive(items[1..]));
      }
    }
  }

  /** The new item list of `incrementQuantity(id)`: it fails exactly when a
      line of that product cannot be priced, and keeps every line. */
  function Incremented(items: seq<CartLine>, id: string): (r: Result<seq<CartLine>, PriceError>)
    ensures r.Ok? <==> forall j :: 0 <= j < |items| && items[j].id == id ==>
      UnitPrice(items[j].product, items[j].config).Ok?
    ensures r.Ok? ==> |r.value| == |items|
  {
    MapMatching(items, id, 1)
  }

  /** The new item list of `decrementQuantity(id)`: it fails exactly when a
      line of that product cannot be priced; otherwise no line is added and
      every line left has a positive quantity. */
  function Decremented(items: seq<CartLine>, id: string): (r: Result<seq<CartLine>, PriceError>)
    ensures r.Ok? <==> forall j :: 0 <= j < |items| && items[j].id == id ==>
      UnitPrice(items[j].product, items[j].config).Ok?
    ensures r.Ok? ==> |r.value| <= |items| && AllPositive(r.value)
  {
    match MapMatching(items, id, -1)
    case Err(e) => Err(e)
    case Ok(mapped) => Ok(KeepPositive(mapped))
  }

  /** Incrementing keeps every quantity positive and raises the item count
      by the number of lines with that id (lines of every configuration). */
  lemma {:induction false} IncrementCount(items: seq<CartLine>, id: string)
    requires AllPositive(items)
    requires Incremented(items, id).Ok?
    ensures AllPositive(Incremented(items, id).value)
    ensures SumQuantities(Incremented(items, id).value) == SumQuantities(items) + |WithId(items, id)|
  {
    if items != [] {
      var r := Incremented(items, id).value;
      assert Incremented(items[1..], id).Ok?;
      IncrementCount(items[1..], id);
      assert r[1..] == Incremented(items[1..], id).value;
    }
  }

  /** Decrementing a product whose lines all have quantity 1 removes those
      lines and keeps the rest, in order; the cart total then excludes them. */
  lemma {:induction false} DecrementFromOne(items: seq<CartLine>, id: string)
    requires AllPositive(items)
    requires forall j :: 0 <= j < |items| && items[j].id == id ==> items[j].quantity == 1
    requires Decremented(items, id).Ok?
    ensures Decremented(items, id).value == WithoutId(items, id)
    ensures SumTotals(Decremented(items, id).value) == SumTotals(items) - SumTotals(WithId(items, id))
  {
    DecrementFromOneLines(items, id);
    RemoveSplitsSums(items, id);
  }

  lemma {:induction false} DecrementFromOneLines(items: seq<CartLine>, id: string)
    requires AllPositive(items)
    requires forall j :: 0 <= j < |items| && items[j].id == id ==> items[j].quantity == 1
    requires Decremented(items, id).Ok?
    ensures Decremented(items, id).value == WithoutId(items, id)
  {
    if items != [] {
      var mapped := MapMatching(items, id, -1).value;
      assert MapMatching(items[1..], id, -1).Ok?;
      DecrementFromOneLines(items[1..], id);
      assert mapped[1..] == MapMatching(items[1..], id, -1).value;
      assert mapped[0].quantity > 0 <==> items[0].id != id;
    }
  }

  /** Decrementing lowers each matching line by one and drops the lines that
      reach zero; lines of other products keep their place and value. */
  lemma {:induction false} DecrementEffect(items: seq<CartLine>, id: string)
    requires AllPositive(items)
    requires Decremented(items, id).Ok?
    ensures AllPositive(Decremented(items, id).value)
    ensures WithoutId(Decremented(items, id).value, id) == WithoutId(items, id)
    ensures SumQuantities(Decremented(items, id).value) == SumQuantities(items) - |WithId(items, id)|
  {
    if items != [] {
      var mapped := MapMatching(items, id, -1).value;
      assert MapMatching(items[1..], id, -1).Ok?;
      DecrementEffect(items[1..], id);
      assert mapped[1..] == MapMatching(items[1..], id, -1).value;
      if mapped[0].quantity > 0 {
        assert KeepPositive(mapped) == [mapped[0]] + KeepPositive(mapped[1..]);
      }
    }
  }

  // ---------------------------------------------------------------------
  // The store

  class Cart {
    var items: seq<CartLine>

    ghost predicate Valid()
      reads this
    {
      AllPositive(items)
    }

    constructor ()
      ensures Valid() && items == []
    {
      items := [];
    }

    /** `addItem(product, config)`; a price error leaves the cart unchanged. */
    method AddItem(id: string, product: Product, config: NodeConfig) returns (outcome: Result<(), PriceError>)
      requires Valid()
      modifies this
      ensures Valid()
      ensures outcome.Ok? <==> UnitPrice(product, config).Ok?
      ensures items == if outcome.Ok? then AddedItems(old(items), id, product, config).value else old(items)
      ensures outcome.Ok? ==> GetItemCount() == old(GetItemCount()) + 1
    {
      var next := AddedItems(items, id, product, config);
      if next.Err? {
        return Err(next.error);
      }
      AddItemEffect(items, id, product, config);
      items := next.value;
      outcome := Ok(());
    }

    /** `removeItem(id)` */
    method RemoveItem(id: string)
      requires Valid()
      modifies this
      ensures Valid()
      ensures items == WithoutId(old(items), id)
      ensures GetTotalPrice() == old(GetTotalPrice()) - SumTotals(WithId(old(items), id))
    {
      RemoveSplitsSums(items, id);
      items := WithoutId(items, id);
    }

    /** `incrementQuantity(id)`; a price error leaves the cart unchanged. */
    method IncrementQuantity(id: string) returns (outcome: Result<(), PriceError>)
      requires Valid()
      modifies this
      ensures Valid()
      ensures outcome.Ok? <==> Incremented(old(items), id).Ok?
      ensures items == if outcome.Ok? then Incremented(old(items), id).value else old(items)
      ensures outcome.Ok? ==> GetItemCount() == old(GetItemCount()) + |WithId(old(items), id)|
    {
      var next := Incremented(items, id);
      if next.Err? {
        return Err(next.error);
      }
      IncrementCount(items, id);
      items := next.value;
      outcome := Ok(());
    }

    /** `decrementQuantity(id)`; a price error leaves the cart unchanged. */
    method DecrementQuantity(id: string) returns (outcome: Result<(), PriceError>)
      requires Valid()
      modifies this
      ensures Valid()
      ensures outcome.Ok? <==> Decremented(old(items), id).Ok?
      ensures items == if outcome.Ok? then Decremented(old(items), id).value else old(items)
      ensures outcome.Ok? ==> WithoutId(items, id) == WithoutId(old(items), id)
    {
      var next := Decremented(items, id);
      if next.Err? {
        return Err(next.error);
      }
      DecrementEffect(items, id);
      items := next.value;
      outcome := Ok(());
    }

    /** `clearCart()` */
    method ClearCart()
      modifies this
      ensures Valid() && items == []
      ensures GetTotalPrice() == 0 && GetItemCount() == 0
    {
      items := [];
    }

    /** `getTotalPrice()` */
    function GetTotalPrice(): int
      reads this
    {
      SumTotals(items)
    }

    /** `getItemCount()`: in a valid cart at least one item per line. */
    function GetItemCount(): (r: int)
      reads this
      ensures AllPositive(items) ==> r >= |items|
    {
      if AllPositive(items) then ItemCountAtLeastLines(items); SumQuantities(items)
      else SumQuantities(items)
    }
  }
}
