/** The client's product list and the reducer that changes it: replacing
    the whole list with server data, appending, merging an update into the
    products with a given id, and deleting; plus the lookup by id. */
module ProductContext {
  import opened Wrappers
  import opened Js

  /** A product in the list: its client `id`, the server's `_id`, and every
      other property by name. `None` is `undefined`. */
  datatype Product = Product(id: Option<string>, mongoId: Option<string>, fields: map<string, JsValue>)

  /** The data of an update: a server `_id` when it carries one, and the
      other properties it sets. */
  datatype Patch = Patch(mongoId: Option<string>, fields: map<string, JsValue>)

  datatype Action =
    | SetProducts(payload: seq<Product>)
    | AddProduct(product: Product)
    | UpdateProduct(key: Option<string>, data: Patch)
    | DeleteProduct(key: Option<string>)
    | Unknown

  /** `{...p, id: p._id || p.id}` */
  function WithServerId(p: Product): (r: Product)
    ensures r.mongoId == p.mongoId && r.fields == p.fields
    ensures p.mongoId.Some? && p.mongoId.value != "" ==> r.id == p.mongoId
    ensures p.mongoId.None? || p.mongoId == Some("") ==> r.id == p.id
  {
    if p.mongoId.Some? && p.mongoId.value != "" then p.(id := p.mongoId) else p
  }

  /** `payload.map(p => ({...p, id: p._id || p.id}))` */
  function SetAll(payload: seq<Product>): (r: seq<Product>)
    ensures |r| == |payload|
    ensures forall i :: 0 <= i < |r| ==> r[i] == WithServerId(payload[i])
  {
    if payload == [] then [] else [WithServerId(payload[0])] + SetAll(payload[1..])
  }

  /** `{...product, ...data, id: product.id}` */
  function Merge(p: Product, data: Patch): (r: Product)
    ensures r.id == p.id
    ensures forall k :: k in data.fields ==> k in r.fields && r.fields[k] == data.fields[k]
    ensures forall k :: k in p.fields && k !in data.fields ==> k in r.fields && r.fields[k] == p.fields[k]
    ensures r.fields.Keys == p.fields.Keys + data.fields.Keys
    ensures r.mongoId == (if data.mongoId.Some? then data.mongoId else p.mongoId)
  {
    Product(p.id, if data.mongoId.Some? then data.mongoId else p.mongoId, p.fields + data.fields)
  }

  /** `state.map(p => p.id === key ? merge(p, data) : p)` */
  function UpdateAll(state: seq<Product>, key: Option<string>, data: Patch): (r: seq<Product>)
    ensures |r| == |state|
    ensures forall i :: 0 <= i < |r| ==>
      r[i] == (if state[i].id == key then Merge(state[i], data) else state[i])
  {
    if state == [] then []
    else [if state[0].id == key then Merge(state[0], data) else state[0]] + UpdateAll(state[1..], key, data)
  }

  /** `state.filter(p => p.id !== key)` */
  function DeleteAll(state: seq<Product>, key: Option<string>): (r: seq<Product>)
    ensures |r| <= |state|
    ensures forall p :: p in r <==> p in state && p.id != key
  {
    if state == [] then []
    else if state[0].id == key then DeleteAll(state[1..], key)
    else [state[0]] + DeleteAll(state[1..], key)
  }

  /** `productReducer(state, action)` */
  function Reduce(state: seq<Product>, action: Action): (r: seq<Product>) {
    match action
    case SetProducts(payload) => SetAll(payload)
    case AddProduct(p) => state + [WithServerId(p)]
    case UpdateProduct(key, data) => UpdateAll(state, key, data)
    case DeleteProduct(key) => DeleteAll(state, key)
    case Unknown => state
  }

  /** SET_PRODUCTS forgets the old list; ADD_PRODUCT appends exactly one
      product at the end and keeps the rest; an unknown action changes
      nothing. */
  lemma ReduceSetAddUnknown(state: seq<Product>, payload: seq<Product>, p: Product)
    ensures Reduce(state, SetProducts(payload)) == Reduce([], SetProducts(payload))
    ensures |Reduce(state, SetProducts(payload))| == |payload|
    ensures var r := Reduce(state, AddProduct(p));
      |r| == |state| + 1 && r[..|state|] == state && r[|state|] == WithServerId(p)
    ensures Reduce(state, Unknown) == state
  {
    var r := Reduce(state, AddProduct(p));
    assert r[..|state|] == state;
  }

  /** UPDATE_PRODUCT never changes any product's `id`, so the ids of the
      list are the same before and after, and updating an id no product has
      changes nothing. */
  lemma UpdateKeepsIds(state: seq<Product>, key: Option<string>, data: Patch)
    ensures forall i :: 0 <= i < |state| ==> Reduce(state, UpdateProduct(key, data))[i].id == state[i].id
    ensures (forall i :: 0 <= i < |state| ==> state[i].id != key) ==>
      Reduce(state, UpdateProduct(key, data)) == state
  {
  }

  /** DELETE_PRODUCT keeps the other products in their order: deleting
      from a joined list is joining the two deletions. */
  lemma {:induction false} DeletePreservesOrder(a: seq<Product>, b: seq<Product>, key: Option<string>)
    ensures DeleteAll(a + b, key) == DeleteAll(a, key) + DeleteAll(b, key)
    decreases |a|
  {
    if a == [] {
      assert a + b == b;
    } else {
      assert (a + b)[0] == a[0];
      assert (a + b)[1..] == a[1..] + b;
      DeletePreservesOrder(a[1..], b, key);
    }
  }

  /** Deleting an id twice is deleting it once. */
  lemma {:induction false} DeleteIdempotent(a: seq<Product>, key: Option<string>)
    ensures DeleteAll(DeleteAll(a, key), key) == DeleteAll(a, key)
    decreases |a|
  {
    if a != [] {
      DeleteIdempotent(a[1..], key);
      if a[0].id != key {
        var rest := DeleteAll(a[1..], key);
        assert DeleteAll(a, key) == [a[0]] + rest;
        assert ([a[0]] + rest)[1..] == rest;
      }
    }
  }

  /** The lookup key names the product by its client id or its server id. */
  predicate Matches(p: Product, key: string) {
    p.id == Some(key) || p.mongoId == Some(key)
  }

  /** The index of the first product the key names. */
  function FindIndex(products: seq<Product>, key: string): (r: Option<nat>)
    ensures r.Some? ==> r.value < |products| && Matches(products[r.value], key)
    ensures r.Some? ==> forall j :: 0 <= j < r.value ==> !Matches(products[j], key)
    ensures r.None? ==> forall j :: 0 <= j < |products| ==> !Matches(products[j], key)
  {
    if products == [] then None
    else if Matches(products[0], key) then Some(0)
    else match FindIndex(products[1..], key)
      case None => None
      case Some(i) => Some(i + 1)
  }

  /** `products.find(p => p.id === key || p._id === key)` */
  function GetProduct(products: seq<Product>, key: string): (r: Option<Product>)
    ensures r.Some? ==> r.value in products && Matches(r.value, key)
    ensures r.None? <==> forall p :: p in products ==> !Matches(p, key)
    ensures r.Some? ==>
      exists i :: 0 <= i < |products| && products[i] == r.value && (forall j :: 0 <= j < i ==> !Matches(products[j], key))
  {
    match FindIndex(products, key)
    case None => None
    case Some(i) => Some(products[i])
  }

  /** A product added under a fresh server id is found by that id. */
  lemma AddThenGet(state: seq<Product>, p: Product, k: string)
    requires p.mongoId == Some(k) && k != ""
    requires forall q :: q in state ==> !Matches(q, k)
    ensures GetProduct(Reduce(state, AddProduct(p)), k) == Some(WithServerId(p))
  {
    GetAfterPrefix(state, [WithServerId(p)], k);
  }

  /** After such a product is deleted by its id, the lookup finds nothing. */
  lemma AddDeleteThenGet(state: seq<Product>, p: Product, k: string)
    requires p.mongoId == Some(k) && k != ""
    requires forall q :: q in state ==> !Matches(q, k)
    ensures GetProduct(Reduce(Reduce(state, AddProduct(p)), DeleteProduct(Some(k))), k).None?
  {
    var r := Reduce(state, AddProduct(p));
    var d := DeleteAll(r, Some(k));
    forall q | q in d ensures !Matches(q, k) {
      assert q in r && q.id != Some(k);
      assert q in state || q == WithServerId(p);
    }
  }

  /** Looking past a prefix that holds no match. */
  lemma {:induction false} GetAfterPrefix(a: seq<Product>, b: seq<Product>, k: string)
    requires forall q :: q in a ==> !Matches(q, k)
    ensures GetProduct(a + b, k) == GetProduct(b, k)
    decreases |a|
  {
    if a != [] {
      assert a[0] in a;
      assert (a + b)[0] == a[0];
      assert (a + b)[1..] == a[1..] + b;
      forall q | q in a[1..] ensures !Matches(q, k) {
        assert q in a;
      }
      GetAfterPrefix(a[1..], b, k);
    } else {
      assert a + b == b;
    }
  }
}
