/** Orders as the server records them (server.js, POST /api/orders): each
    requested line is resolved against the menu and priced from it, never
    from the request, and the order total is the sum of the line subtotals. */
module Orders {
  import opened Common
  import opened Catalog

  /** One requested line, `{id, quantity}`, as the client sends it. The server
      does not validate the quantity, so it is any integer here. */
  datatype LineRequest = LineRequest(id: Id, quantity: int)

  /** A recorded line; `price` and `subtotal` are in cents. */
  datatype OrderLine = OrderLine(id: Id, name: string, price: nat, quantity: int, subtotal: int)

  /** An order; `status` is free text (the server stores any value it is given)
      and `createdAt` is the creation instant in milliseconds. */
  datatype Order = Order(id: Id, customerName: string, items: seq<OrderLine>, total: int,
                         status: string, createdAt: nat)

  /** The outcome of pricing a request: its lines and their total. */
  datatype Priced = Priced(items: seq<OrderLine>, total: int)

  /** Failures: a missing order or invoice (404), and the two reasons an
      order request is refused (400). */
  datatype Error = NotFound | ItemNotFound(id: Id) | ItemUnavailable(name: string)

  datatype Result<T> = Ok(value: T) | Err(error: Error)

  const WALK_IN: string := "Walk-in Customer"
  const PENDING: string := "pending"

  function OrderId(o: Order): Id { o.id }

  /** Sum of the line subtotals. */
  function SubtotalSum(items: seq<OrderLine>): (r: int)
    ensures items == [] ==> r == 0
    ensures (forall i :: 0 <= i < |items| ==> items[i].subtotal >= 0) ==> r >= 0
  {
    if items == [] then 0 else items[0].subtotal + SubtotalSum(items[1..])
  }

  lemma {:induction false} SubtotalSumAppend(items: seq<OrderLine>, line: OrderLine)
    ensures SubtotalSum(items + [line]) == SubtotalSum(items) + line.subtotal
  {
    if items == [] {
      assert items + [line] == [line];
    } else {
      assert (items + [line])[1..] == items[1..] + [line];
      SubtotalSumAppend(items[1..], line);
    }
  }

  /** An item can be ordered when its id resolves and the item is available. */
  predicate Orderable(menu: Menu, id: Id)
  {
    Resolve(menu, id).Some? && Resolve(menu, id).value.available
  }

  /** Why a line is refused: the id is unknown, or it names an unavailable item. */
  function LineError(menu: Menu, id: Id): (e: Error)
    requires !Orderable(menu, id)
    ensures e.ItemNotFound? <==> Resolve(menu, id).None?
    ensures e.ItemNotFound? ==> e.id == id
    ensures e.ItemUnavailable? ==> e.name == Resolve(menu, id).value.name && !Resolve(menu, id).value.available
  {
    match Resolve(menu, id)
    case None => ItemNotFound(id)
    case Some(m) => ItemUnavailable(m.name)
  }

  /** `line` records `req` at the menu's current price: id, name and price come
      from the menu item the id resolves to, the quantity from the request,
      and the subtotal is price times quantity. */
  ghost predicate PricedFrom(menu: Menu, req: LineRequest, line: OrderLine)
  {
    && Resolve(menu, req.id).Some?
    && var m := Resolve(menu, req.id).value;
    && line.id == req.id && line.name == m.name && line.price == m.price
    && line.quantity == req.quantity && line.subtotal == line.price * line.quantity
  }

  /** Every line's subtotal is its price times its quantity, and the total is their sum. */
  ghost predicate WellPriced(items: seq<OrderLine>, total: int)
  {
    && (forall i :: 0 <= i < |items| ==> items[i].subtotal == items[i].price * items[i].quantity)
    && total == SubtotalSum(items)
  }

  /** Line `i` is the first of `lines` that cannot be ordered. */
  predicate FirstRefused(menu: Menu, lines: seq<LineRequest>, i: int)
  {
    && 0 <= i < |lines| && !Orderable(menu, lines[i].id)
    && forall j :: 0 <= j < i ==> Orderable(menu, lines[j].id)
  }

  /** Appending a line priced from request `i` extends a priced prefix by one. */
  lemma PricedExtend(menu: Menu, lines: seq<LineRequest>, items: seq<OrderLine>, line: OrderLine)
    requires |items| < |lines|
    requires forall j :: 0 <= j < |items| ==> PricedFrom(menu, lines[j], items[j])
    requires PricedFrom(menu, lines[|items|], line)
    ensures forall j :: 0 <= j < |items| + 1 ==> PricedFrom(menu, lines[j], (items + [line])[j])
  {
  }

  /** Prices the requested lines in request order, accumulating the total;
      the first line that is unknown or unavailable aborts the whole request. */
  method PriceLines(menu: Menu, lines: seq<LineRequest>) returns (r: Result<Priced>)
    ensures r.Ok? <==> forall i :: 0 <= i < |lines| ==> Orderable(menu, lines[i].id)
    ensures r.Ok? ==> |r.value.items| == |lines|
    ensures r.Ok? ==> forall i :: 0 <= i < |lines| ==> PricedFrom(menu, lines[i], r.value.items[i])
    ensures r.Ok? ==> WellPriced(r.value.items, r.value.total)
    ensures r.Err? ==> exists i :: FirstRefused(menu, lines, i) && r.error == LineError(menu, lines[i].id)
  {
    var items: seq<OrderLine> := [];
    var total := 0;
    var i := 0;
    while i < |lines|
      invariant 0 <= i <= |lines| && |items| == i
      invariant forall j :: 0 <= j < i ==> Orderable(menu, lines[j].id)
      invariant forall j :: 0 <= j < i ==> PricedFrom(menu, lines[j], items[j])
      invariant total == SubtotalSum(items)
    {
      var found := Resolve(menu, lines[i].id);
      if found.None? {
        r := Err(ItemNotFound(lines[i].id));
        assert FirstRefused(menu, lines, i);
        return;
      }
      var m := found.value;
      if !m.available {
        r := Err(ItemUnavailable(m.name));
        assert FirstRefused(menu, lines, i);
        return;
      }
      var line := OrderLine(lines[i].id, m.name, m.price, lines[i].quantity, m.price * lines[i].quantity);
      assert PricedFrom(menu, lines[i], line);
      PricedExtend(menu, lines, items, line);
      SubtotalSumAppend(items, line);
      total := total + line.subtotal;
      items := items + [line];
      i := i + 1;
    }
    r := Ok(Priced(items, total));
  }

  /** The customer name recorded on an order: the given name, or
      "Walk-in Customer" when it is absent or empty. */
  function NameOrDefault(customerName: Option<string>): (n: string)
    ensures n != ""
    ensures customerName.Some? && customerName.value != "" ==> n == customerName.value
    ensures customerName.None? || customerName.value == "" ==> n == WALK_IN
  {
    if customerName.Some? && customerName.value != "" then customerName.value else WALK_IN
  }
}
