/**
 * The in-memory order list: order records, the two seed orders, order identifiers and the
 * authorization rewrite.
 */
module Orders {
  import Numeral

  /** Order statuses, shown as "Pendiente de Autorización", "Autorizado" and "En Ruta". */
  datatype Status = PendingAuthorization | Authorized | InRoute

  /**
   * An order row. `weight` keeps the text the quote form held; the seed rows' numeric weights
   * are written as their decimal text.
   */
  datatype Order = Order(
    id: string,
    client: string,
    origin: string,
    dest: string,
    cargoType: string,
    weight: string,
    price: int,
    status: Status,
    date: string)

  /** The orders the list starts with (INITIAL_ORDERS). */
  const InitialOrders: seq<Order> := [
    Order("ORD-001", "Pesquera del Mar", "Mazatlán", "La Paz", "Congelado", "500", 6800, Authorized, "2024-05-10"),
    Order("ORD-002", "Agro Sur", "La Paz", "Los Cabos", "Fresco", "200", 3200, InRoute, "2024-05-11")
  ]

  /** The range of the random suffix: `Math.floor(Math.random() * 10000)`. */
  const IdSuffixBound: nat := 10000

  /** The identifier of a new order whose random suffix is `k`. */
  function OrderId(k: nat): (id: string)
    ensures |id| > 4 && id[..4] == "ORD-"
  {
    "ORD-" + Numeral.NatToString(k)
  }

  predicate HasId(orders: seq<Order>, id: string) {
    exists i :: 0 <= i < |orders| && orders[i].id == id
  }

  /** The `map` callback of the authorization: a matching row is authorized, whatever its status. */
  function Approve(o: Order, id: string): Order {
    if o.id == id then o.(status := Authorized) else o
  }

  /**
   * Authorizes every order whose id is `id`: the list keeps its length and order, each matching
   * row changes its status to Authorized and nothing else, and every other row is kept as it is.
   */
  function Authorize(orders: seq<Order>, id: string): (r: seq<Order>)
    ensures |r| == |orders|
    ensures forall i :: 0 <= i < |orders| ==>
      if orders[i].id == id then r[i] == orders[i].(status := Authorized) else r[i] == orders[i]
  {
    if orders == [] then [] else [Approve(orders[0], id)] + Authorize(orders[1..], id)
  }

  /** Different suffixes give different identifiers. */
  lemma OrderIdInjective(k1: nat, k2: nat)
    requires OrderId(k1) == OrderId(k2)
    ensures k1 == k2
  {
    assert Numeral.NatToString(k1) == OrderId(k1)[4..];
    assert Numeral.NatToString(k2) == OrderId(k2)[4..];
    Numeral.NatToStringInjective(k1, k2);
  }

  /**
   * A generated identifier never equals a seed identifier: the seeds' suffixes carry leading
   * zeros, which a rendered number never has.
   */
  lemma NewIdIsNotSeedId(k: nat)
    ensures !HasId(InitialOrders, OrderId(k))
  {
  }

  /** Authorizing an id that no order carries leaves the list unchanged. */
  lemma AuthorizeUnknownId(orders: seq<Order>, id: string)
    requires !HasId(orders, id)
    ensures Authorize(orders, id) == orders
  {
  }

  /** Authorizing the same id twice is the same as authorizing it once. */
  lemma AuthorizeIdempotent(orders: seq<Order>, id: string)
    ensures Authorize(Authorize(orders, id), id) == Authorize(orders, id)
  {
  }

  /** Authorizations of two ids can be applied in either order. */
  lemma AuthorizeCommutes(orders: seq<Order>, id1: string, id2: string)
    ensures Authorize(Authorize(orders, id1), id2) == Authorize(Authorize(orders, id2), id1)
  {
  }

  /** The rewrite does not look at the status: the seed order that is in route becomes authorized. */
  lemma AuthorizeOverridesInRoute()
    ensures InitialOrders[1].status == InRoute
    ensures Authorize(InitialOrders, "ORD-002")[1].status == Authorized
  {
  }
}
