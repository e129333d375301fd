/** The order record as the database schema declares it: which paths are
    required, which take a default, which must be one of a fixed set of
    strings, and that no two stored orders share an `orderID`. Saving a
    document runs these checks; a failing document is not stored. */
module OrderModel {
  import opened Wrappers

  const PaymentMethods: set<string> := {"card", "paypal", "crypto", "bank_transfer"}
  const PaymentStatuses: set<string> := {"pending", "completed", "failed", "refunded"}
  const OrderStatuses: set<string> := {"pending", "processing", "shipped", "delivered", "cancelled", "returned"}

  const DefaultCountry := "Nigeria"
  const DefaultStatus := "pending"

  /** Every path is optional in the document; `None` is an absent value.
      `createdAt` is the timestamp the schema's `timestamps` option adds. */
  datatype Customer = Customer(
    firstName: Option<string>, lastName: Option<string>, email: Option<string>, phone: Option<string>)

  datatype ShippingInfo = ShippingInfo(
    address: Option<string>, address2: Option<string>, city: Option<string>,
    state: Option<string>, zipCode: Option<string>, country: Option<string>)

  /** A line item of the order. */
  datatype Item = Item(productId: Option<string>, name: Option<string>, quantity: Option<real>, basePrice: Option<real>)

  datatype Order = Order(
    orderID: Option<string>,
    customer: Option<Customer>,
    shippingInfo: Option<ShippingInfo>,
    sameAsShipping: Option<bool>,
    products: Option<seq<Item>>,
    subtotal: Option<real>,
    shippingCost: Option<real>,
    tax: Option<real>,
    discount: Option<real>,
    totalPrice: Option<real>,
    paymentMethod: Option<string>,
    paymentStatus: Option<string>,
    orderStatus: Option<string>,
    // Not a path of the schema: a `paymentId` in a request body or written
    // by the crypto route is discarded by the strict schema, so every stored
    // document has None here, as NewDocument and CryptoOrder state.
    paymentId: Option<string>,
    createdAt: int)

  /** A schema path that can fail validation. */
  datatype Path =
    | OrderIdPath
    | FirstNamePath | LastNamePath | EmailPath
    | AddressPath | CityPath | StatePath | ZipCodePath | CountryPath
    | ItemPath(index: nat, field: ItemField)
    | SubtotalPath | ShippingCostPath | TaxPath | TotalPricePath
    | PaymentMethodPath | PaymentStatusPath | OrderStatusPath

  datatype ItemField = ProductIdField | NameField | QuantityField | BasePriceField

  const NoShippingInfo := ShippingInfo(None, None, None, None, None, None)
  const NoCustomer := Customer(None, None, None, None)

  /** The defaults a new document receives for absent paths. */
  function ApplyDefaults(o: Order): (r: Order)
    ensures r.shippingInfo.Some? && r.shippingInfo.value.country.Some?
    ensures o.shippingInfo.None? || o.shippingInfo.value.country.None? ==>
      r.shippingInfo.value.country == Some(DefaultCountry)
    ensures r.sameAsShipping == (if o.sameAsShipping.None? then Some(true) else o.sameAsShipping)
    ensures r.products.Some? && |r.products.value| == (if o.products.None? then 0 else |o.products.value|)
    ensures forall i :: 0 <= i < |r.products.value| ==>
      r.products.value[i].quantity == (if o.products.value[i].quantity.None? then Some(1.0) else o.products.value[i].quantity)
    ensures r.shippingCost == (if o.shippingCost.None? then Some(0.0) else o.shippingCost)
    ensures r.tax == (if o.tax.None? then Some(0.0) else o.tax)
    ensures r.discount == (if o.discount.None? then Some(0.0) else o.discount)
    ensures r.paymentStatus == (if o.paymentStatus.None? then Some(DefaultStatus) else o.paymentStatus)
    ensures r.orderStatus == (if o.orderStatus.None? then Some(DefaultStatus) else o.orderStatus)
    ensures r.orderID == o.orderID && r.customer == o.customer && r.subtotal == o.subtotal
    ensures r.totalPrice == o.totalPrice && r.paymentMethod == o.paymentMethod && r.paymentId == o.paymentId
  {
    var ship := o.shippingInfo.GetOr(NoShippingInfo);
    o.(shippingInfo := Some(ship.(country := Some(ship.country.GetOr(DefaultCountry)))),
       sameAsShipping := Some(o.sameAsShipping.GetOr(true)),
       products := Some(ItemDefaults(o.products.GetOr([]))),
       shippingCost := Some(o.shippingCost.GetOr(0.0)),
       tax := Some(o.tax.GetOr(0.0)),
       discount := Some(o.discount.GetOr(0.0)),
       paymentStatus := Some(o.paymentStatus.GetOr(DefaultStatus)),
       orderStatus := Some(o.orderStatus.GetOr(DefaultStatus)))
  }

  function ItemDefaults(items: seq<Item>): (r: seq<Item>)
    ensures |r| == |items|
    ensures forall i :: 0 <= i < |r| ==> r[i] == items[i].(quantity := Some(items[i].quantity.GetOr(1.0)))
  {
    if items == [] then [] else [items[0].(quantity := Some(items[0].quantity.GetOr(1.0)))] + ItemDefaults(items[1..])
  }

  /** A required string fails on an absent value and on "". */
  predicate MissingText(v: Option<string>) {
    v.None? || v == Some("")
  }

  /** An enum accepts an absent value and any of its strings. */
  predicate OutsideEnum(v: Option<string>, allowed: set<string>) {
    v.Some? && v.value !in allowed
  }

  predicate ItemValid(it: Item) {
    !MissingText(it.productId) && !MissingText(it.name) && it.quantity.Some? && it.basePrice.Some?
  }

  /** The document passes every validator of the schema. */
  predicate Valid(o: Order) {
    var c := o.customer.GetOr(NoCustomer);
    var s := o.shippingInfo.GetOr(NoShippingInfo);
    !MissingText(o.orderID) &&
    !MissingText(c.firstName) && !MissingText(c.lastName) && !MissingText(c.email) &&
    !MissingText(s.address) && !MissingText(s.city) && !MissingText(s.state) &&
    !MissingText(s.zipCode) && !MissingText(s.country) &&
    (forall i :: 0 <= i < |o.products.GetOr([])| ==> ItemValid(o.products.GetOr([])[i])) &&
    o.subtotal.Some? && o.shippingCost.Some? && o.tax.Some? && o.totalPrice.Some? &&
    !MissingText(o.paymentMethod) && !OutsideEnum(o.paymentMethod, PaymentMethods) &&
    !OutsideEnum(o.paymentStatus, PaymentStatuses) && !OutsideEnum(o.orderStatus, OrderStatuses)
  }

  predicate ItemFieldFails(it: Item, f: ItemField) {
    match f
    case ProductIdField => MissingText(it.productId)
    case NameField => MissingText(it.name)
    case QuantityField => it.quantity.None?
    case BasePriceField => it.basePrice.None?
  }

  /** The validator of path `p` rejects the document. */
  predicate Fails(o: Order, p: Path) {
    var c := o.customer.GetOr(NoCustomer);
    var s := o.shippingInfo.GetOr(NoShippingInfo);
    match p
    case OrderIdPath => MissingText(o.orderID)
    case FirstNamePath => MissingText(c.firstName)
    case LastNamePath => MissingText(c.lastName)
    case EmailPath => MissingText(c.email)
    case AddressPath => MissingText(s.address)
    case CityPath => MissingText(s.city)
    case StatePath => MissingText(s.state)
    case ZipCodePath => MissingText(s.zipCode)
    case CountryPath => MissingText(s.country)
    case ItemPath(i, f) => i < |o.products.GetOr([])| && ItemFieldFails(o.products.GetOr([])[i], f)
    case SubtotalPath => o.subtotal.None?
    case ShippingCostPath => o.shippingCost.None?
    case TaxPath => o.tax.None?
    case TotalPricePath => o.totalPrice.None?
    case PaymentMethodPath => MissingText(o.paymentMethod) || OutsideEnum(o.paymentMethod, PaymentMethods)
    case PaymentStatusPath => OutsideEnum(o.paymentStatus, PaymentStatuses)
    case OrderStatusPath => OutsideEnum(o.orderStatus, OrderStatuses)
  }

  /** A document is valid exactly when no path's validator rejects it. */
  lemma ValidIffNoFailure(o: Order)
    ensures Valid(o) <==> forall p :: !Fails(o, p)
  {
    if Valid(o) {
      ValidHasNoFailure(o);
    } else {
      var p := SomeFailure(o);
    }
  }

  lemma ValidHasNoFailure(o: Order)
    requires Valid(o)
    ensures forall p :: !Fails(o, p)
  {
    forall p ensures !Fails(o, p) {
      if p.ItemPath? {
        var items := o.products.GetOr([]);
        if p.index < |items| {
          assert ItemValid(items[p.index]);
        }
      }
    }
  }

  /** A path whose validator rejects an invalid document. */
  lemma SomeFailure(o: Order) returns (p: Path)
    requires !Valid(o)
    ensures Fails(o, p)
  {
    var c := o.customer.GetOr(NoCustomer);
    var s := o.shippingInfo.GetOr(NoShippingInfo);
    var items := o.products.GetOr([]);
    if MissingText(o.orderID) { return OrderIdPath; }
    if MissingText(c.firstName) { return FirstNamePath; }
    if MissingText(c.lastName) { return LastNamePath; }
    if MissingText(c.email) { return EmailPath; }
    if MissingText(s.address) { return AddressPath; }
    if MissingText(s.city) { return CityPath; }
    if MissingText(s.state) { return StatePath; }
    if MissingText(s.zipCode) { return ZipCodePath; }
    if MissingText(s.country) { return CountryPath; }
    if o.subtotal.None? { return SubtotalPath; }
    if o.shippingCost.None? { return ShippingCostPath; }
    if o.tax.None? { return TaxPath; }
    if o.totalPrice.None? { return TotalPricePath; }
    if MissingText(o.paymentMethod) || OutsideEnum(o.paymentMethod, PaymentMethods) { return PaymentMethodPath; }
    if OutsideEnum(o.paymentStatus, PaymentStatuses) { return PaymentStatusPath; }
    if OutsideEnum(o.orderStatus, OrderStatuses) { return OrderStatusPath; }
    var i :| 0 <= i < |items| && !ItemValid(items[i]);
    if MissingText(items[i].productId) { return ItemPath(i, ProductIdField); }
    if MissingText(items[i].name) { return ItemPath(i, NameField); }
    if items[i].quantity.None? { return ItemPath(i, QuantityField); }
    return ItemPath(i, BasePriceField);
  }

  /** The enum paths: a status outside its set makes any document invalid,
      and the default statuses are inside theirs. */
  lemma StatusEnums(o: Order)
    ensures OutsideEnum(o.orderStatus, OrderStatuses) ==> !Valid(o)
    ensures OutsideEnum(o.paymentStatus, PaymentStatuses) ==> !Valid(o)
    ensures o.paymentMethod.Some? && o.paymentMethod.value == "crypto" ==> !OutsideEnum(o.paymentMethod, PaymentMethods)
    ensures DefaultStatus in PaymentStatuses && DefaultStatus in OrderStatuses
    ensures "Completed" !in OrderStatuses && "Failed" !in OrderStatuses && "Pending" !in OrderStatuses
    ensures "completed" in PaymentStatuses && "failed" in PaymentStatuses && "pending" in PaymentStatuses
  {
  }

  /** Applying the defaults clears the failures of the defaulted paths and
      keeps the statuses' enum checks as they were. */
  lemma DefaultsAreValid(o: Order)
    ensures !Fails(ApplyDefaults(o), ShippingCostPath) && !Fails(ApplyDefaults(o), TaxPath)
    ensures o.shippingInfo.None? || o.shippingInfo.value.country.None? ==> !Fails(ApplyDefaults(o), CountryPath)
    ensures o.paymentStatus.None? ==> !Fails(ApplyDefaults(o), PaymentStatusPath)
    ensures o.orderStatus.None? ==> !Fails(ApplyDefaults(o), OrderStatusPath)
    ensures forall i, f :: 0 <= i < |o.products.GetOr([])| && f != QuantityField ==>
      (Fails(ApplyDefaults(o), ItemPath(i, f)) <==> Fails(o, ItemPath(i, f)))
    ensures forall i :: !Fails(ApplyDefaults(o), ItemPath(i, QuantityField))
  {
  }

  // ---------------------------------------------------------------------
  // The collection of orders

  /** The stored orders by their database `_id`. */
  type Store = map<string, Order>

  /** The unique index on `orderID`. */
  predicate UniqueOrderIDs(store: Store) {
    forall a, b :: a in store && b in store && a != b ==> store[a].orderID != store[b].orderID
  }

  /** Every stored order passed validation and the orderIDs are unique. */
  predicate StoreInvariant(store: Store) {
    UniqueOrderIDs(store) && forall id :: id in store ==> Valid(store[id])
  }

  datatype SaveError = ValidationFailed | DuplicateOrderID

  /** `doc.save()` under `_id` `id`: validation first, then the unique index. */
  function Save(store: Store, id: string, o: Order): (r: Result<Store, SaveError>)
    ensures r.Ok? <==> Valid(o) && forall other :: other in store && other != id ==> store[other].orderID != o.orderID
    ensures r.Ok? ==> r.value == store[id := o]
    ensures r.Err? ==> (r.error == ValidationFailed <==> !Valid(o))
  {
    if !Valid(o) then Err(ValidationFailed)
    else if exists other :: other in store && other != id && store[other].orderID == o.orderID then Err(DuplicateOrderID)
    else Ok(store[id := o])
  }

  /** Saving keeps the store invariant. */
  lemma SaveKeepsInvariant(store: Store, id: string, o: Order)
    requires StoreInvariant(store)
    ensures Save(store, id, o).Ok? ==> StoreInvariant(Save(store, id, o).value)
  {
    if Save(store, id, o).Ok? {
      var s := Save(store, id, o).value;
      forall a, b | a in s && b in s && a != b ensures s[a].orderID != s[b].orderID {
        if a != id && b != id {
          assert s[a] == store[a] && s[b] == store[b];
        }
      }
    }
  }
}
