/** The order API's handlers over the order collection: creating an order
    from a request body, listing a page of orders newest first, changing an
    order's statuses, and deleting an order. The collection is a map from
    `_id` to document; the clock and fresh ids are parameters. */
module OrderController {
  import opened Wrappers
  import opened Js
  import opened OrderModel

  // ---------------------------------------------------------------------
  // createOrder

  const RequiredOrderFields: seq<string> := ["customer", "products", "totalPrice", "paymentMethod"]

  /** `req.body[field]` is truthy: objects and arrays always are, a number
      unless it is 0, a string unless it is "". */
  predicate Present(body: Order, field: string) {
    if field == "customer" then body.customer.Some?
    else if field == "products" then body.products.Some?
    else if field == "totalPrice" then body.totalPrice.Some? && body.totalPrice.value != 0.0
    else if field == "paymentMethod" then !MissingText(body.paymentMethod)
    else if field == "orderID" then !MissingText(body.orderID)
    else false
  }

  /** `fields.filter(field => !req.body[field])` */
  function MissingFields(body: Order, fields: seq<string>): (r: seq<string>)
    ensures forall f :: f in r <==> f in fields && !Present(body, f)
    ensures |r| <= |fields|
  {
    if fields == [] then []
    else if Present(body, fields[0]) then MissingFields(body, fields[1..])
    else [fields[0]] + MissingFields(body, fields[1..])
  }

  /** The missing fields keep the order in which they are declared. */
  lemma {:induction false} MissingFieldsInOrder(body: Order, a: seq<string>, b: seq<string>)
    ensures MissingFields(body, a + b) == MissingFields(body, a) + MissingFields(body, b)
    decreases |a|
  {
    if a == [] {
      assert a + b == b;
    } else {
      assert (a + b)[0] == a[0];
      assert (a + b)[1..] == a[1..] + b;
      MissingFieldsInOrder(body, a[1..], b);
    }
  }

  datatype CreateError =
    | MissingRequired(fields: seq<string>)
    | NoProducts
    | ValidationError
    | CreateFailed

  /** The `orderID` the new document gets: the one sent, or "ORD-" followed
      by the current time in milliseconds. */
  function NewOrderID(body: Order, now: nat): (r: string)
    ensures r != ""
    ensures MissingText(body.orderID) ==> |r| > 4 && r[..4] == "ORD-"
  {
    if !MissingText(body.orderID) then body.orderID.value else "ORD-" + DecimalString(now)
  }

  /** `new Order({...req.body, orderID})`: the body with its `orderID`
      filled in, the schema's defaults applied and the creation time set. */
  function NewDocument(body: Order, now: nat): (r: Order)
    ensures !MissingText(r.orderID) && r.createdAt == now
    ensures !MissingText(body.orderID) ==> r.orderID == body.orderID
    ensures r.customer == body.customer && r.totalPrice == body.totalPrice && r.paymentMethod == body.paymentMethod
  {
    ApplyDefaults(body.(orderID := Some(NewOrderID(body, now)), paymentId := None, createdAt := now))
  }

  /** No stored order other than `_id` `id` holds this orderID. */
  predicate OrderIDFree(store: Store, id: string, o: Order) {
    forall other :: other in store && other != id ==> store[other].orderID != o.orderID
  }

  /** `createOrder`: the body is checked for the four required fields, then
      for a non-empty product list; only then is a document with defaults
      built and saved under the fresh `_id` `newId`. It succeeds exactly
      when those checks, the schema's validators and the unique index all
      pass, and the stored document carries the body's customer, line items,
      amounts and payment method. */
  function CreateOrder(store: Store, body: Order, newId: string, now: nat): (r: Result<(Store, Order), CreateError>)
    requires newId !in store
    ensures r.Ok? <==>
      MissingFields(body, RequiredOrderFields) == [] && body.products.Some? && |body.products.value| > 0 &&
      Valid(NewDocument(body, now)) && OrderIDFree(store, newId, NewDocument(body, now))
    ensures r == Err(ValidationError) <==>
      MissingFields(body, RequiredOrderFields) == [] && body.products.Some? && |body.products.value| > 0 &&
      !Valid(NewDocument(body, now))
    ensures r.Ok? ==> r.value.0 == store[newId := r.value.1] && Valid(r.value.1)
    ensures r.Ok? ==> r.value.1.orderID == Some(NewOrderID(body, now)) && r.value.1.createdAt == now
    ensures r.Ok? ==>
      r.value.1.customer == body.customer && r.value.1.shippingInfo.Some? && body.products.Some? &&
      r.value.1.products == Some(ItemDefaults(body.products.value)) &&
      r.value.1.subtotal == body.subtotal && r.value.1.totalPrice == body.totalPrice &&
      r.value.1.paymentMethod == body.paymentMethod && r.value.1.paymentId.None?
    ensures r.Ok? ==>
      r.value.1.orderStatus == Some(body.orderStatus.GetOr(DefaultStatus)) &&
      r.value.1.paymentStatus == Some(body.paymentStatus.GetOr(DefaultStatus))
  {
    var missing := MissingFields(body, RequiredOrderFields);
    if |missing| > 0 then Err(MissingRequired(missing))
    else
      assert RequiredOrderFields[1] == "products" && "products" !in missing;
      if |body.products.value| == 0 then Err(NoProducts)
      else
      var doc := NewDocument(body, now);
      match Save(store, newId, doc)
      case Ok(s) => Ok((s, doc))
      case Err(ValidationFailed) => Err(ValidationError)
      case Err(DuplicateOrderID) => Err(CreateFailed)
  }

  /** The request checks come first and store nothing: every absent required
      field is reported. */
  lemma CreateOrderRejectsMissing(store: Store, body: Order, newId: string, now: nat)
    requires newId !in store
    ensures var m := MissingFields(body, RequiredOrderFields);
      |m| > 0 ==> CreateOrder(store, body, newId, now) == Err(MissingRequired(m))
  {
  }

  /** The missing fields are listed in declaration order: without a customer
      and a payment method, exactly those two are named. */
  lemma {:induction false} MissingFieldsExample(body: Order)
    requires body.customer.None? && body.products.Some? && body.totalPrice == Some(5.0) && body.paymentMethod.None?
    ensures MissingFields(body, RequiredOrderFields) == ["customer", "paymentMethod"]
  {
    assert "products"[0] != "customer"[0];
    assert "totalPrice"[0] != "customer"[0] && "totalPrice"[0] != "products"[0];
    assert "paymentMethod"[0] != "customer"[0] && "paymentMethod"[1] != "products"[1];
    assert "paymentMethod"[0] != "totalPrice"[0];
    assert !Present(body, "customer") && Present(body, "products");
    assert Present(body, "totalPrice") && !Present(body, "paymentMethod");
    MissingOfFour(body, "customer", "products", "totalPrice", "paymentMethod");
  }

  lemma MissingOfFour(body: Order, a: string, b: string, c: string, d: string)
    ensures MissingFields(body, [a, b, c, d]) == Kept(body, a) + (Kept(body, b) + (Kept(body, c) + Kept(body, d)))
  {
    MissingOfThree(body, b, c, d);
    assert [a, b, c, d] == [a] + [b, c, d];
    MissingCons(body, a, [b, c, d]);
  }

  lemma MissingOfThree(body: Order, b: string, c: string, d: string)
    ensures MissingFields(body, [b, c, d]) == Kept(body, b) + (Kept(body, c) + Kept(body, d))
  {
    MissingOfTwo(body, c, d);
    assert [b, c, d] == [b] + [c, d];
    MissingCons(body, b, [c, d]);
  }

  lemma MissingOfTwo(body: Order, c: string, d: string)
    ensures MissingFields(body, [c, d]) == Kept(body, c) + Kept(body, d)
  {
    assert [d] == [d] + [];
    MissingCons(body, d, []);
    assert MissingFields(body, [d]) == Kept(body, d);
    assert [c, d] == [c] + [d];
    MissingCons(body, c, [d]);
  }

  /** The field itself when it is missing, nothing otherwise. */
  function Kept(body: Order, f: string): (r: seq<string>) {
    if Present(body, f) then [] else [f]
  }

  lemma MissingCons(body: Order, f: string, rest: seq<string>)
    ensures MissingFields(body, [f] + rest) == Kept(body, f) + MissingFields(body, rest)
  {
    assert ([f] + rest)[0] == f;
    assert ([f] + rest)[1..] == rest;
  }

  /** With every required field present, an empty product list is refused. */
  lemma CreateOrderRejectsEmpty(store: Store, body: Order, newId: string, now: nat)
    requires newId !in store
    requires MissingFields(body, RequiredOrderFields) == [] && body.products == Some([])
    ensures CreateOrder(store, body, newId, now) == Err(NoProducts)
  {
  }

  /** A created order is stored with its defaults and keeps the store's
      invariant; generated ids from different instants differ. */
  lemma CreateOrderStores(store: Store, body: Order, newId: string, now: nat, later: nat)
    requires newId !in store && StoreInvariant(store)
    ensures CreateOrder(store, body, newId, now).Ok? ==> StoreInvariant(CreateOrder(store, body, newId, now).value.0)
    ensures CreateOrder(store, body, newId, now).Ok? && body.paymentStatus.None? ==>
      CreateOrder(store, body, newId, now).value.1.paymentStatus == Some(DefaultStatus)
    ensures now != later && MissingText(body.orderID) ==> NewOrderID(body, now) != NewOrderID(body, later)
  {
    if CreateOrder(store, body, newId, now).Ok? {
      SaveKeepsInvariant(store, newId, NewDocument(body, now));
    }
    if now != later && MissingText(body.orderID) {
      var a := "ORD-" + DecimalString(now);
      var b := "ORD-" + DecimalString(later);
      if a == b {
        assert a[4..] == DecimalString(now) && b[4..] == DecimalString(later);
        DecimalStringInjective(now, later);
      }
    }
  }

  // ---------------------------------------------------------------------
  // getAllOrders

  /** The raw query of the listing. */
  datatype ListQuery = ListQuery(
    page: Option<string>, limit: Option<string>, orderStatus: Option<string>, paymentStatus: Option<string>)

  datatype ListResult = ListResult(count: nat, total: nat, page: int, pages: int, orders: seq<Order>)

  datatype ListError = NegativeSkip

  const DefaultOrderLimit := 10

  /** The status filter: a truthy query value must equal the document's. */
  predicate MatchesFilter(o: Order, q: ListQuery) {
    (q.orderStatus.Some? && q.orderStatus.value != "" ==> o.orderStatus == q.orderStatus) &&
    (q.paymentStatus.Some? && q.paymentStatus.value != "" ==> o.paymentStatus == q.paymentStatus)
  }

  function FilterDocs(docs: seq<Order>, q: ListQuery): (r: seq<Order>)
    ensures |r| <= |docs|
    ensures forall i :: 0 <= i < |r| ==> MatchesFilter(r[i], q)
    ensures multiset(r) <= multiset(docs)
    ensures forall o :: o in docs && MatchesFilter(o, q) ==> o in r
  {
    if docs == [] then []
    else
      assert docs == [docs[0]] + docs[1..];
      if MatchesFilter(docs[0], q) then [docs[0]] + FilterDocs(docs[1..], q) else FilterDocs(docs[1..], q)
  }

  predicate NewestFirst(s: seq<Order>) {
    forall i, j :: 0 <= i < j < |s| ==> s[i].createdAt >= s[j].createdAt
  }

  /** The first order of a newest-first list is at least as new as all. */
  lemma HeadIsNewest(s: seq<Order>)
    requires NewestFirst(s) && s != []
    ensures forall y :: y in s ==> y.createdAt <= s[0].createdAt
  {
    forall y | y in s ensures y.createdAt <= s[0].createdAt {
      var k :| 0 <= k < |s| && s[k] == y;
      if k > 0 {
        assert s[0].createdAt >= s[k].createdAt;
      }
    }
  }

  /** An order at least as new as every order of a newest-first list can
      go in front of it. */
  lemma NewestPrepend(x: Order, s: seq<Order>)
    requires NewestFirst(s)
    requires forall y :: y in s ==> y.createdAt <= x.createdAt
    ensures NewestFirst([x] + s)
  {
    var r := [x] + s;
    forall i, j | 0 <= i < j < |r| ensures r[i].createdAt >= r[j].createdAt {
      assert r[j] == s[j - 1];
      if i == 0 {
        assert r[j] in s;
      } else {
        assert r[i] == s[i - 1];
      }
    }
  }

  /** Places `x` before the first element older than it. */
  function InsertNewest(x: Order, s: seq<Order>): (r: seq<Order>)
    requires NewestFirst(s)
    ensures |r| == |s| + 1
    ensures multiset(r) == multiset(s) + multiset{x}
    ensures forall y :: y in r ==> y == x || y in s
    ensures NewestFirst(r)
  {
    if s == [] then [x]
    else if s[0].createdAt <= x.createdAt then
      HeadIsNewest(s);
      NewestPrepend(x, s);
      [x] + s
    else
      assert NewestFirst(s[1..]) by {
        forall i, j | 0 <= i < j < |s[1..]| ensures s[1..][i].createdAt >= s[1..][j].createdAt {
          assert s[1..][i] == s[i + 1] && s[1..][j] == s[j + 1];
        }
      }
      var rest := InsertNewest(x, s[1..]);
      assert s == [s[0]] + s[1..];
      HeadIsNewest(s);
      assert forall y :: y in rest ==> y.createdAt <= s[0].createdAt by {
        forall y | y in rest ensures y.createdAt <= s[0].createdAt {
          if y != x {
            assert y in s[1..];
            assert y in s;
          }
        }
      }
      NewestPrepend(s[0], rest);
      [s[0]] + rest
  }

  /** `.sort({ createdAt: -1 })` */
  function SortNewest(s: seq<Order>): (r: seq<Order>)
    ensures NewestFirst(r)
    ensures multiset(r) == multiset(s)
    ensures |r| == |s|
  {
    if s == [] then []
    else
      assert s == [s[0]] + s[1..];
      InsertNewest(s[0], SortNewest(s[1..]))
  }

  /** The absolute value: a negative limit returns at most that many. */
  function Abs(n: int): (r: nat) {
    if n < 0 then -n else n
  }

  /** `.skip(skip).limit(n)`: at most `n` orders, from position `skip` on. */
  function Window(s: seq<Order>, skip: nat, n: nat): (w: seq<Order>)
    ensures |w| == (if skip >= |s| then 0 else if skip + n <= |s| then n else |s| - skip)
    ensures forall i :: 0 <= i < |w| ==> w[i] == s[skip + i]
  {
    if skip >= |s| then [] else s[skip..if skip + n <= |s| then skip + n else |s|]
  }

  /** A run of a newest-first list is newest first, and holds only members
      of the list. */
  lemma WindowOf(s: seq<Order>, skip: nat, n: nat)
    requires NewestFirst(s)
    ensures NewestFirst(Window(s, skip, n))
    ensures forall y :: y in Window(s, skip, n) ==> y in s
  {
    var w := Window(s, skip, n);
    forall i, j | 0 <= i < j < |w| ensures w[i].createdAt >= w[j].createdAt {
      assert w[i] == s[skip + i] && w[j] == s[skip + j];
    }
    forall y | y in w ensures y in s {
      var k :| 0 <= k < |w| && w[k] == y;
      assert s[skip + k] == y;
    }
  }

  /** Every document kept by the filter matches it. */
  lemma FilteredMatch(docs: seq<Order>, q: ListQuery)
    ensures forall y :: y in multiset(FilterDocs(docs, q)) ==> MatchesFilter(y, q)
  {
    var m := FilterDocs(docs, q);
    forall y | y in multiset(m) ensures MatchesFilter(y, q) {
      assert y in m;
      var k :| 0 <= k < |m| && m[k] == y;
    }
  }

  /** `getAllOrders` over the documents of the collection. */
  function ListOrders(docs: seq<Order>, q: ListQuery): (r: Result<ListResult, ListError>)
    ensures r.Ok? ==> r.value.count == |r.value.orders| <= Abs(ParseIntOr(q.limit, DefaultOrderLimit))
    ensures r.Ok? ==> NewestFirst(r.value.orders)
    ensures r.Ok? ==> forall i :: 0 <= i < |r.value.orders| ==> MatchesFilter(r.value.orders[i], q)
    ensures r.Ok? ==> r.value.total == |FilterDocs(docs, q)|
    ensures r.Ok? ==> r.value.page == ParseIntOr(q.page, 1)
    ensures r.Ok? ==> r.value.pages == CeilDiv(r.value.total, ParseIntOr(q.limit, DefaultOrderLimit))
    ensures r.Err? <==> (ParseIntOr(q.page, 1) - 1) * ParseIntOr(q.limit, DefaultOrderLimit) < 0
  {
    ListPage(docs, q, ParseIntOr(q.page, 1), ParseIntOr(q.limit, DefaultOrderLimit))
  }

  /** The listing once `page` and `limit` have been read from the query. */
  function ListPage(docs: seq<Order>, q: ListQuery, page: int, limit: int): (r: Result<ListResult, ListError>)
    requires limit != 0
    ensures r.Ok? ==> r.value.count == |r.value.orders| <= Abs(limit)
    ensures r.Ok? ==> NewestFirst(r.value.orders)
    ensures r.Ok? ==> forall i :: 0 <= i < |r.value.orders| ==> MatchesFilter(r.value.orders[i], q)
    ensures r.Ok? ==> r.value.total == |FilterDocs(docs, q)|
    ensures r.Ok? ==> r.value.page == page
    ensures r.Ok? ==> r.value.pages == CeilDiv(r.value.total, limit)
    ensures r.Err? <==> (page - 1) * limit < 0
    ensures r.Ok? ==> r.value.orders == Window(SortNewest(FilterDocs(docs, q)), (page - 1) * limit, Abs(limit))
  {
    var skip := (page - 1) * limit;
    if skip < 0 then Err(NegativeSkip)
    else
      var matching := FilterDocs(docs, q);
      var sorted := SortNewest(matching);
      var window := Window(sorted, skip, Abs(limit));
      WindowOf(sorted, skip, Abs(limit));
      FilteredMatch(docs, q);
      assert forall y :: y in window ==> MatchesFilter(y, q) by {
        forall y | y in window ensures MatchesFilter(y, q) {
          assert y in sorted;
          assert y in multiset(sorted);
        }
      }
      Ok(ListResult(|window|, |matching|, page, CeilDiv(|matching|, limit), window))
  }

  /** The listed orders are the run of the newest-first list that starts
      after the earlier pages. */
  lemma ListOrdersWindow(docs: seq<Order>, q: ListQuery)
    requires ListOrders(docs, q).Ok? && ParseIntOr(q.limit, DefaultOrderLimit) > 0
    ensures var page := ParseIntOr(q.page, 1);
      var limit := ParseIntOr(q.limit, DefaultOrderLimit);
      ListOrders(docs, q).value.page == page &&
      ListOrders(docs, q).value.orders == Window(SortNewest(FilterDocs(docs, q)), (page - 1) * limit, limit)
  {
    var page := ParseIntOr(q.page, 1);
    var limit := ParseIntOr(q.limit, DefaultOrderLimit);
    assert ListOrders(docs, q) == ListPage(docs, q, page, limit);
    assert Abs(limit) == limit;
  }

  /** With a positive limit the page count just covers the matching orders. */
  lemma ListOrdersPages(docs: seq<Order>, q: ListQuery)
    requires ListOrders(docs, q).Ok? && ParseIntOr(q.limit, DefaultOrderLimit) > 0
    ensures PagesJustCover(ListOrders(docs, q).value.pages, ParseIntOr(q.limit, DefaultOrderLimit), ListOrders(docs, q).value.total)
  {
    var r := ListOrders(docs, q).value;
    PagesCover(r.total, ParseIntOr(q.limit, DefaultOrderLimit), r.pages);
  }

  /** Without a query the first page of ten is listed. */
  lemma ListOrdersDefault(docs: seq<Order>, q: ListQuery)
    requires q.page.None? && q.limit.None?
    ensures ListOrders(docs, q).Ok?
    ensures |ListOrders(docs, q).value.orders| == if |FilterDocs(docs, q)| < 10 then |FilterDocs(docs, q)| else 10
  {
    assert ParseIntOr(q.page, 1) == 1;
    assert ParseIntOr(q.limit, DefaultOrderLimit) == 10;
  }

  // ---------------------------------------------------------------------
  // updateOrderStatus and deleteOrder

  /** `ObjectId.isValid(id)` for a string: 12 characters, or 24 hex digits. */
  predicate IsValidObjectId(id: string) {
    |id| == 12 || (|id| == 24 && forall i :: 0 <= i < |id| ==> IsHexDigit(id[i]))
  }

  /** The update document: a `None` field is not part of the update. */
  datatype StatusUpdate = StatusUpdate(orderStatus: Option<string>, paymentStatus: Option<string>)

  /** A request value is truthy: present and not "". */
  predicate Given(v: Option<string>) {
    v.Some? && v.value != ""
  }

  /** `const updateFields = {}; if (orderStatus) ...; if (paymentStatus) ...` */
  method UpdateFields(orderStatus: Option<string>, paymentStatus: Option<string>) returns (u: StatusUpdate)
    ensures u.orderStatus.Some? <==> Given(orderStatus)
    ensures u.paymentStatus.Some? <==> Given(paymentStatus)
    ensures u.orderStatus.Some? ==> u.orderStatus == orderStatus
    ensures u.paymentStatus.Some? ==> u.paymentStatus == paymentStatus
  {
    u := StatusUpdate(None, None);
    if Given(orderStatus) {
      u := u.(orderStatus := orderStatus);
    }
    if Given(paymentStatus) {
      u := u.(paymentStatus := paymentStatus);
    }
  }

  /** The document after the update: the fields in the update, and nothing else. */
  function Applied(o: Order, u: StatusUpdate): (r: Order)
    ensures r.(orderStatus := o.orderStatus, paymentStatus := o.paymentStatus) == o
    ensures r.orderStatus == (if u.orderStatus.Some? then u.orderStatus else o.orderStatus)
    ensures r.paymentStatus == (if u.paymentStatus.Some? then u.paymentStatus else o.paymentStatus)
  {
    o.(orderStatus := if u.orderStatus.Some? then u.orderStatus else o.orderStatus,
       paymentStatus := if u.paymentStatus.Some? then u.paymentStatus else o.paymentStatus)
  }

  /** The update validators check the enum of each updated path. */
  predicate UpdateValid(u: StatusUpdate) {
    !OutsideEnum(u.orderStatus, OrderStatuses) && !OutsideEnum(u.paymentStatus, PaymentStatuses)
  }

  datatype UpdateError = InvalidId | NoStatusGiven | UpdateValidationError | NotFound

  /** `updateOrderStatus(id, {orderStatus, paymentStatus})` */
  method UpdateOrderStatus(store: Store, id: string, orderStatus: Option<string>, paymentStatus: Option<string>)
    returns (r: Result<Store, UpdateError>)
    ensures !IsValidObjectId(id) ==> r == Err(InvalidId)
    ensures IsValidObjectId(id) && !Given(orderStatus) && !Given(paymentStatus) ==> r == Err(NoStatusGiven)
    ensures r == Err(NotFound) <==>
      IsValidObjectId(id) && (Given(orderStatus) || Given(paymentStatus)) && id !in store &&
      !OutsideEnum(if Given(orderStatus) then orderStatus else None, OrderStatuses) &&
      !OutsideEnum(if Given(paymentStatus) then paymentStatus else None, PaymentStatuses)
    ensures r == Err(UpdateValidationError) <==>
      IsValidObjectId(id) && (Given(orderStatus) || Given(paymentStatus)) &&
      (OutsideEnum(if Given(orderStatus) then orderStatus else None, OrderStatuses) ||
       OutsideEnum(if Given(paymentStatus) then paymentStatus else None, PaymentStatuses))
    ensures r.Ok? <==>
      IsValidObjectId(id) && (Given(orderStatus) || Given(paymentStatus)) && id in store &&
      !OutsideEnum(if Given(orderStatus) then orderStatus else None, OrderStatuses) &&
      !OutsideEnum(if Given(paymentStatus) then paymentStatus else None, PaymentStatuses)
    ensures r.Ok? ==> id in store && r.value.Keys == store.Keys
    ensures r.Ok? ==> forall k :: k in store && k != id ==> r.value[k] == store[k]
    ensures r.Ok? ==> r.value[id].(orderStatus := store[id].orderStatus, paymentStatus := store[id].paymentStatus) == store[id]
    ensures r.Ok? ==> r.value[id].orderStatus == (if Given(orderStatus) then orderStatus else store[id].orderStatus)
    ensures r.Ok? ==> r.value[id].paymentStatus == (if Given(paymentStatus) then paymentStatus else store[id].paymentStatus)
  {
    if !IsValidObjectId(id) {
      return Err(InvalidId);
    }
    if !Given(orderStatus) && !Given(paymentStatus) {
      return Err(NoStatusGiven);
    }
    var u := UpdateFields(orderStatus, paymentStatus);
    if !UpdateValid(u) {
      return Err(UpdateValidationError);
    }
    if id !in store {
      return Err(NotFound);
    }
    r := Ok(store[id := Applied(store[id], u)]);
  }

  /** An update with valid statuses keeps a valid order valid. */
  lemma UpdateKeepsValid(o: Order, u: StatusUpdate)
    requires Valid(o) && UpdateValid(u)
    ensures Valid(Applied(o, u))
  {
  }

  datatype LookupError = LookupInvalidId | LookupNotFound

  /** `getOrderById(id)` */
  function GetOrderById(store: Store, id: string): (r: Result<Order, LookupError>)
    ensures r == Err(LookupInvalidId) <==> !IsValidObjectId(id)
    ensures r == Err(LookupNotFound) <==> IsValidObjectId(id) && id !in store
    ensures r.Ok? ==> id in store && r.value == store[id]
  {
    if !IsValidObjectId(id) then Err(LookupInvalidId)
    else if id !in store then Err(LookupNotFound)
    else Ok(store[id])
  }

  datatype DeleteError = DeleteInvalidId | DeleteNotFound

  /** `deleteOrder(id)` */
  function DeleteOrder(store: Store, id: string): (r: Result<Store, DeleteError>)
    ensures r.Err? <==> !IsValidObjectId(id) || id !in store
    ensures r.Ok? ==> r.value.Keys == store.Keys - {id}
    ensures r.Ok? ==> forall k :: k in r.value ==> r.value[k] == store[k]
    ensures r.Ok? ==> |r.value| == |store| - 1
  {
    if !IsValidObjectId(id) then Err(DeleteInvalidId)
    else if id !in store then Err(DeleteNotFound)
    else Ok(store - {id})
  }

  /** Deleting keeps the store invariant, and a second delete of the same id
      reports not-found. */
  lemma DeleteThenDelete(store: Store, id: string)
    requires StoreInvariant(store)
    ensures DeleteOrder(store, id).Ok? ==> StoreInvariant(DeleteOrder(store, id).value)
    ensures DeleteOrder(store, id).Ok? ==> DeleteOrder(DeleteOrder(store, id).value, id) == Err(DeleteNotFound)
  {
  }

  /** After a delete the order is not found; a delete that fails is one
      whose lookup fails too. */
  lemma DeleteThenGet(store: Store, id: string)
    ensures DeleteOrder(store, id).Ok? ==> GetOrderById(DeleteOrder(store, id).value, id) == Err(LookupNotFound)
    ensures DeleteOrder(store, id).Err? ==> GetOrderById(store, id).Err?
  {
  }
}
