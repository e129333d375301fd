/** The dashboard's order state: the orders the client holds, the
    pagination the server last reported, the page guards that decide
    whether to fetch again, and the local list updates that follow a
    successful add, update or delete. The requests themselves are not part
    of this model; each update method is the state change made once the
    server has answered with success. */
module OrderContext {
  import opened Wrappers
  import opened OrderModel

  /** An order as the client holds it: its `_id` and the document. */
  datatype OrderItem = OrderItem(id: string, doc: Order)

  datatype PaginationState = PaginationState(page: int, pages: int, total: int, limit: int)

  /** The pagination before the first fetch: page 1 of 1, twenty a page. */
  const InitialPagination := PaginationState(1, 1, 0, 20)

  /** The `page` and `limit` query of a fetch. */
  datatype FetchRequest = FetchRequest(page: int, limit: int)

  /** The server's answer to a fetch. */
  datatype OrdersResponse = OrdersResponse(success: bool, page: int, pages: int, total: int, orders: seq<OrderItem>)

  /** `setPage(page)`: a fetch of that page at the current limit, issued only
      for a page between 1 and the number of pages. */
  function PageRequest(p: PaginationState, page: int): (r: Option<FetchRequest>)
    ensures r.Some? <==> 1 <= page <= p.pages
    ensures r.Some? ==> r.value.page == page && r.value.limit == p.limit
  {
    if 1 <= page <= p.pages then Some(FetchRequest(page, p.limit)) else None
  }

  /** `setPageSize(size)`: a fetch of the first page at the new size, issued
      only for a positive size. */
  function PageSizeRequest(size: int): (r: Option<FetchRequest>)
    ensures r.Some? <==> size > 0
    ensures r.Some? ==> r.value.page == 1 && r.value.limit == size
  {
    if size > 0 then Some(FetchRequest(1, size)) else None
  }

  /** `[created, ...prev]` */
  function Prepended(prev: seq<OrderItem>, created: OrderItem): (r: seq<OrderItem>)
    ensures |r| == |prev| + 1 && r[0] == created && r[1..] == prev
  {
    [created] + prev
  }

  /** `prev.map(order => order._id === id ? updated : order)` */
  function Replaced(prev: seq<OrderItem>, id: string, updated: OrderItem): (r: seq<OrderItem>)
    ensures |r| == |prev|
    ensures forall i :: 0 <= i < |r| ==> r[i] == (if prev[i].id == id then updated else prev[i])
  {
    if prev == [] then []
    else [if prev[0].id == id then updated else prev[0]] + Replaced(prev[1..], id, updated)
  }

  /** `prev.filter(order => order._id !== id)` */
  function Removed(prev: seq<OrderItem>, id: string): (r: seq<OrderItem>)
    ensures |r| <= |prev|
    ensures forall o :: o in r <==> o in prev && o.id != id
  {
    if prev == [] then []
    else if prev[0].id == id then Removed(prev[1..], id)
    else [prev[0]] + Removed(prev[1..], id)
  }

  /** `orders.find(order => order._id === id)` */
  function Find(orders: seq<OrderItem>, id: string): (r: Option<OrderItem>)
    ensures r.Some? ==> r.value in orders && r.value.id == id
    ensures r.None? <==> forall o :: o in orders ==> o.id != id
  {
    if orders == [] then None
    else if orders[0].id == id then Some(orders[0])
    else Find(orders[1..], id)
  }

  /** The lookup returns the first order with the id. */
  lemma {:induction false} FindFirst(orders: seq<OrderItem>, id: string, i: nat)
    requires i < |orders| && orders[i].id == id
    requires forall j :: 0 <= j < i ==> orders[j].id != id
    ensures Find(orders, id) == Some(orders[i])
  {
    if i > 0 {
      FindFirst(orders[1..], id, i - 1);
    }
  }

  /** The order just added is what the lookup finds for its id, and the
      earlier orders follow it unchanged. */
  lemma AddThenFind(prev: seq<OrderItem>, created: OrderItem)
    ensures Find(Prepended(prev, created), created.id) == Some(created)
    ensures forall id :: id != created.id ==> Find(Prepended(prev, created), id) == Find(prev, id)
  {
  }

  /** An update replaces the orders with the id and touches no other; an id
      that no order has changes nothing, and after the update the lookup
      finds the new version. */
  lemma ReplacedEffect(prev: seq<OrderItem>, id: string, updated: OrderItem)
    requires updated.id == id
    ensures (forall o :: o in prev ==> o.id != id) ==> Replaced(prev, id, updated) == prev
    ensures (exists o :: o in prev && o.id == id) ==> Find(Replaced(prev, id, updated), id) == Some(updated)
    ensures forall other :: other != id ==> Find(Replaced(prev, id, updated), other) == Find(prev, other)
  {
    ReplacedNoMatch(prev, id, updated);
    ReplacedFind(prev, id, updated);
  }

  lemma {:induction false} ReplacedNoMatch(prev: seq<OrderItem>, id: string, updated: OrderItem)
    ensures (forall o :: o in prev ==> o.id != id) ==> Replaced(prev, id, updated) == prev
  {
    if prev != [] && forall o :: o in prev ==> o.id != id {
      assert prev[0] in prev;
      assert forall o :: o in prev[1..] ==> o in prev;
      ReplacedNoMatch(prev[1..], id, updated);
    }
  }

  lemma {:induction false} ReplacedFind(prev: seq<OrderItem>, id: string, updated: OrderItem)
    requires updated.id == id
    ensures (exists o :: o in prev && o.id == id) ==> Find(Replaced(prev, id, updated), id) == Some(updated)
    ensures forall other :: other != id ==> Find(Replaced(prev, id, updated), other) == Find(prev, other)
  {
    if prev != [] {
      ReplacedFind(prev[1..], id, updated);
      var r := Replaced(prev, id, updated);
      assert r[1..] == Replaced(prev[1..], id, updated);
      if prev[0].id != id {
        forall o | o in prev && o.id == id ensures o in prev[1..] {
          assert o != prev[0];
        }
      }
    }
  }

  /** After a delete the lookup finds nothing for the id and finds the same
      order as before for every other id. */
  lemma {:induction false} RemovedFind(prev: seq<OrderItem>, id: string)
    ensures Find(Removed(prev, id), id).None?
    ensures forall other :: other != id ==> Find(Removed(prev, id), other) == Find(prev, other)
  {
    if prev != [] {
      RemovedFind(prev[1..], id);
    }
  }

  /** A delete keeps the remaining orders in their order, and deleting the
      same id twice is deleting it once. */
  lemma {:induction false} RemovedKeepsOrder(a: seq<OrderItem>, b: seq<OrderItem>, id: string)
    ensures Removed(a + b, id) == Removed(a, id) + Removed(b, id)
    decreases |a|
  {
    if a == [] {
      assert a + b == b;
    } else {
      assert (a + b)[0] == a[0];
      assert (a + b)[1..] == a[1..] + b;
      RemovedKeepsOrder(a[1..], b, id);
    }
  }

  lemma {:induction false} RemovedIdempotent(prev: seq<OrderItem>, id: string)
    ensures Removed(Removed(prev, id), id) == Removed(prev, id)
  {
    if prev != [] {
      RemovedIdempotent(prev[1..], id);
      if prev[0].id != id {
        assert ([prev[0]] + Removed(prev[1..], id))[1..] == Removed(prev[1..], id);
      }
    }
  }

  /** The provider's state. */
  class OrderProvider {
    var orders: seq<OrderItem>
    var pagination: PaginationState

    constructor()
      ensures orders == [] && pagination == InitialPagination
    {
      orders := [];
      pagination := InitialPagination;
    }

    /** The answer to `fetchOrders(page, limit)`: on success the orders and
        the pagination are replaced, the limit being the one requested; an
        answer without success changes neither. */
    method FetchAnswered(limit: int, resp: OrdersResponse)
      modifies this
      ensures resp.success ==> orders == resp.orders
      ensures resp.success ==> pagination == PaginationState(resp.page, resp.pages, resp.total, limit)
      ensures !resp.success ==> orders == old(orders) && pagination == old(pagination)
    {
      if resp.success {
        orders := resp.orders;
        pagination := PaginationState(resp.page, resp.pages, resp.total, limit);
      }
    }

    /** `addOrder` once the server has stored the order. */
    method OrderAdded(created: OrderItem)
      modifies this
      ensures orders == Prepended(old(orders), created) && pagination == old(pagination)
    {
      orders := [created] + orders;
    }

    /** `updateOrder` and `updateOrderStatus` once the server has answered. */
    method OrderUpdated(id: string, updated: OrderItem)
      modifies this
      ensures orders == Replaced(old(orders), id, updated) && pagination == old(pagination)
    {
      orders := Replaced(orders, id, updated);
    }

    /** `deleteOrder` once the server has deleted the order. */
    method OrderDeleted(id: string)
      modifies this
      ensures orders == Removed(old(orders), id) && pagination == old(pagination)
    {
      orders := Removed(orders, id);
    }

    /** `getOrder(id)` */
    function GetOrder(id: string): (r: Option<OrderItem>)
      reads this
      ensures r.Some? ==> r.value in orders && r.value.id == id
      ensures r.None? <==> forall o :: o in orders ==> o.id != id
    {
      Find(orders, id)
    }
  }
}
