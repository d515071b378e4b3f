/** The server's in-memory state (server.js): the menu, the orders and the
    invoices, with the request handlers that change them. Each handler reads
    a collection, changes it and writes it back; here that is one method that
    reassigns the field. */
module Server {
  import opened Common
  import opened Catalog
  import opened Orders
  import opened Invoices

  /** An invoice agrees with the order it names: that order (the first one with
      its `orderId`) exists, and the invoice carries its name, lines and total,
      with the 8% tax added. */
  ghost predicate InvoiceBacked(inv: Invoice, orders: seq<Order>)
  {
    && inv.tax == Tax(inv.subtotal)
    && inv.total == inv.subtotal + inv.tax
    && IndexOf(orders, OrderId, inv.orderId).Some?
    && var o := orders[IndexOf(orders, OrderId, inv.orderId).value];
    && inv.customerName == o.customerName && inv.items == o.items && inv.subtotal == o.total
  }

  class Store {
    var menu: Menu
    var orders: seq<Order>
    var invoices: seq<Invoice>

    /** Every order's total is the sum of its priced lines, and every invoice
        is backed by its order. */
    ghost predicate Valid()
      reads this
    {
      && (forall i :: 0 <= i < |orders| ==> WellPriced(orders[i].items, orders[i].total))
      && (forall i :: 0 <= i < |invoices| ==> InvoiceBacked(invoices[i], orders))
    }

    constructor (menu: Menu)
      ensures Valid()
      ensures this.menu == menu && orders == [] && invoices == []
    {
      this.menu := menu;
      orders := [];
      invoices := [];
    }

    /** PUT /api/menu/:id — sets the availability of the first item with `id`,
        searching the coffee group and then the snacks group. */
    method SetAvailability(id: Id, available: bool) returns (r: Result<Menu>)
      requires Valid()
      modifies this
      ensures Valid()
      ensures orders == old(orders) && invoices == old(invoices)
      ensures match WithAvailability(old(menu), id, available)
              case None => r == Err(NotFound) && menu == old(menu)
              case Some(m) => r == Ok(m) && menu == m
    {
      var k := IndexOf(menu.coffee, ItemId, id);
      if k.Some? {
        menu := menu.(coffee := menu.coffee[k.value := menu.coffee[k.value].(available := available)]);
      } else {
        var j := IndexOf(menu.snacks, ItemId, id);
        if j.None? {
          return Err(NotFound);
        }
        menu := menu.(snacks := menu.snacks[j.value := menu.snacks[j.value].(available := available)]);
      }
      r := Ok(menu);
    }

    /** POST /api/orders — prices the requested lines from the menu and appends
        a pending order; nothing is appended when a line is refused. */
    method CreateOrder(lines: seq<LineRequest>, customerName: Option<string>, orderId: Id, createdAt: nat)
      returns (r: Result<Order>)
      requires Valid()
      modifies this
      ensures Valid()
      ensures menu == old(menu) && invoices == old(invoices)
      ensures r.Ok? <==> forall i :: 0 <= i < |lines| ==> Orderable(menu, lines[i].id)
      ensures r.Err? ==> orders == old(orders)
      ensures r.Err? ==> exists i :: FirstRefused(menu, lines, i) && r.error == LineError(menu, lines[i].id)
      ensures r.Ok? ==> orders == old(orders) + [r.value]
      ensures r.Ok? ==> r.value.id == orderId && r.value.customerName == NameOrDefault(customerName)
                        && r.value.status == PENDING && r.value.createdAt == createdAt
      ensures r.Ok? ==> |r.value.items| == |lines|
                        && (forall i :: 0 <= i < |lines| ==> PricedFrom(menu, lines[i], r.value.items[i]))
                        && WellPriced(r.value.items, r.value.total)
    {
      var priced := PriceLines(menu, lines);
      if priced.Err? {
        return Err(priced.error);
      }
      var order := Order(orderId, NameOrDefault(customerName), priced.value.items, priced.value.total,
                         PENDING, createdAt);
      forall i | 0 <= i < |invoices|
        ensures IndexOf(orders + [order], OrderId, invoices[i].orderId) == IndexOf(orders, OrderId, invoices[i].orderId)
      {
        IndexOfConcat(orders, [order], OrderId, invoices[i].orderId);
      }
      orders := orders + [order];
      r := Ok(order);
    }

    /** PUT /api/orders/:id — overwrites the status of the first order with
        `id`, whatever the new value is. */
    method UpdateStatus(id: Id, status: string) returns (r: Result<Order>)
      requires Valid()
      modifies this
      ensures Valid()
      ensures menu == old(menu) && invoices == old(invoices)
      ensures match IndexOf(old(orders), OrderId, id)
              case None => r == Err(NotFound) && orders == old(orders)
              case Some(k) => orders == old(orders)[k := old(orders)[k].(status := status)] && r == Ok(orders[k])
    {
      var k := IndexOf(orders, OrderId, id);
      if k.None? {
        return Err(NotFound);
      }
      var updated := orders[k.value].(status := status);
      var next := orders[k.value := updated];
      forall i | 0 <= i < |invoices|
        ensures IndexOf(next, OrderId, invoices[i].orderId) == IndexOf(orders, OrderId, invoices[i].orderId)
      {
        IndexOfSameKeys(next, orders, OrderId, invoices[i].orderId);
      }
      orders := next;
      r := Ok(updated);
    }

    /** POST /api/invoices — appends the invoice of the first order with
        `orderId`; the orders are not touched. */
    method GenerateInvoice(orderId: Id, invoiceId: Id, millis: nat, createdAt: nat) returns (r: Result<Invoice>)
      requires Valid()
      modifies this
      ensures Valid()
      ensures menu == old(menu) && orders == old(orders)
      ensures match IndexOf(orders, OrderId, orderId)
              case None => r == Err(NotFound) && invoices == old(invoices)
              case Some(k) => r == Ok(MakeInvoice(orders[k], invoiceId, millis, createdAt))
                              && invoices == old(invoices) + [r.value]
    {
      var k := IndexOf(orders, OrderId, orderId);
      if k.None? {
        return Err(NotFound);
      }
      var invoice := MakeInvoice(orders[k.value], invoiceId, millis, createdAt);
      invoices := invoices + [invoice];
      r := Ok(invoice);
    }

    /** GET /api/invoices/:id — the first invoice with `id`. */
    function GetInvoice(id: Id): (r: Result<Invoice>)
      reads this
      ensures r.Ok? <==> exists i :: 0 <= i < |invoices| && invoices[i].id == id
      ensures r.Ok? ==> r.value.id == id
      ensures r.Ok? ==>
        exists i :: 0 <= i < |invoices| && invoices[i] == r.value
          && forall j :: 0 <= j < i ==> invoices[j].id != id
      ensures r.Err? ==> r.error == NotFound
    {
      match IndexOf(invoices, InvoiceId, id)
      case Some(k) => Ok(invoices[k])
      case None => Err(NotFound)
    }
  }

  /** A walk-in purchase end to end: two espressos at 3.50 make a pending 7.00
      order, invoiced at 0.56 tax for 7.56. */
  method WalkInScenario() returns (order: Order, invoice: Invoice)
    ensures order.customerName == WALK_IN && order.status == PENDING && order.total == 700
    ensures invoice.orderId == order.id && invoice.subtotal == 700
    ensures invoice.tax == 56 && invoice.total == 756
  {
    var espresso := MenuItem("1", "Classic Espresso", 350, Coffee, true);
    var store := new Store(Menu([espresso], []));
    assert Resolve(store.menu, "1") == Some(espresso);
    var placed := store.CreateOrder([LineRequest("1", 2)], None, "order-1", 1000);
    assert placed.Ok?;
    order := placed.value;
    assert PricedFrom(store.menu, LineRequest("1", 2), order.items[0]);
    assert order.items[0].subtotal == 700;
    assert order.items[1..] == [];
    assert SubtotalSum(order.items) == 700 + SubtotalSum([]);
    assert store.orders == [order];
    var billed := store.GenerateInvoice(order.id, "invoice-1", 2000, 2000);
    assert billed.Ok?;
    invoice := billed.value;
  }
}
