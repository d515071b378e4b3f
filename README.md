# Vintage Coffee counter: orders and invoices, in Dafny

This project models the bookkeeping core of a small coffee-counter system. The
server keeps three collections: the menu (a coffee group and a snacks group of
items, each with an availability flag), the orders and the invoices. The page
in the browser builds an order as a list of selected items before sending it.

The server side (`server.js`) becomes a class `Server.Store`. Its fields are
`menu`, `orders` and `invoices`, and it has one method per request handler:

- set an item's availability;
- create an order;
- update an order's status;
- generate an invoice;
- fetch an invoice.

Each handler reads a whole collection, changes it and writes it back. Here
that is a method that reassigns the field. The pure parts are functions with
their own contracts:

- resolving an id against the menu;
- the menu after an availability change;
- pricing the requested lines, as a method with a loop that accumulates the total;
- the tax and the invoice.

The browser side (`public/script.js`) has three parts:

- The list of selected items is a class `Cart.Selection` over a
  `seq<Entry>`. Its methods are add, increase, decrease and remove.
- Each cart action also has a recursive reference definition (`Added`,
  `Increased`, `Decreased`, `Removed`). Lemmas connect each definition to the
  find-and-update the page performs, prove that the list stays well formed,
  and say how each action moves the displayed total.
- The derived views are functions: the available-items list, the flag a
  toggle asks for, the submitted payload and the newest-first listing.

Conventions of the model:

- Money is in integer cents. Prices are `nat`. Quantities are `int`, because
  the server never validates them.
- The 8% tax is rounded to the nearest cent, with halves rounded up:
  `tax = (8*subtotal + 50) / 100`. Dafny's division floors for a positive
  divisor.
- The invoice total is computed the way the server computes it, as the
  subtotal times 1.08 with the same rounding: `(108*subtotal + 50) / 100`.
  `TotalIsSubtotalPlusTax` proves that this always equals subtotal + tax.
- Fresh ids, the `Date.now()` milliseconds used in invoice numbers, and the
  creation instants are parameters. An instant is a `nat` count of
  milliseconds.
- Failures are a `Result` with three errors. `NotFound` is the 404 responses.
  `ItemNotFound(id)` and `ItemUnavailable(name)` are the two errors that order
  creation raises on purpose for a refused line. Its catch-all answers them
  with 400, and it answers every other exception the same way; those other
  400s are listed under "## Left out".

What the code does, and so what the model does, in the places where a
reader might expect something stricter:

- An omitted or empty customer name becomes "Walk-in Customer". It is not
  taken from an authenticated user.
- An empty list of lines is accepted, and gives an order with total 0.
- Any status string is stored verbatim.
- Generating an invoice twice for the same order appends two invoices.
- There is no authentication, no role check, no payment and no per-user
  scoping anywhere in the code.

## Model

The cart actions are stated against four recursive reference definitions in
`Cart`: `Added`, `Increased`, `Decreased` and `Removed`. Each walks the list one
entry at a time and changes the first entry with the id (`Removed` drops every
such entry). The `…At` rows below prove that each one equals the page's
find-and-update or filter. The `Selection` methods are then stated against these
definitions.

| member | source | states |
|---|---|---|
| `Common.IndexOf` | server.js:182 | The result is the index of the first element with the requested id. `None` means that no element has it. This is `Array.prototype.find`, as every handler uses it. |
| `Catalog.Resolve` | server.js:131 | An id resolves to the first item of `coffee ++ snacks` that has that id. No earlier item has it. It is `None` exactly when no menu item has that id. |
| `Catalog.WithAvailability` | server.js:100-112 | Not-found happens exactly when the id resolves to nothing. Otherwise the flattened menu is the old one with only the first matching item's `available` replaced. Both groups keep their lengths. |
| `Catalog.AvailabilityReadBack` | server.js:100-108 | After the update, the id resolves to the same item carrying the new flag. So the next order against it sees the change. |
| `Catalog.AvailabilityIdempotent` | server.js:100-108 | Setting the same flag a second time leaves the menu exactly as the first call left it. |
| `Orders.SubtotalSum` | server.js:129-136 | The running `total +=` over the lines: 0 for no lines, and never negative when no subtotal is negative. |
| `Orders.LineError` | server.js:131-133 | A refused line is `ItemNotFound(id)` exactly when the id is unknown. Otherwise it is `ItemUnavailable(name)` of the resolved, unavailable item. |
| `Orders.PriceLines` | server.js:128-145 | It succeeds exactly when every requested id names an available item. On success it returns one line per request, in request order. Each line takes its name and price from the menu and its quantity from the request, with subtotal = price × quantity. The total is the sum of the subtotals. On failure the error is that of the first refused line. |
| `Orders.NameOrDefault` | server.js:149 | The recorded name is the given name when it is present and non-empty. Otherwise it is "Walk-in Customer". It is never empty. |
| `Invoices.Tax` | server.js:214 | The tax is 8% of the subtotal to within half a cent: `-50 < 100*tax - 8*subtotal <= 50`, with halves rounded up. |
| `Invoices.TaxIsNearestCent` | server.js:214 | Only one cent value lies in that window, so the bound determines the tax. |
| `Invoices.ScaledTotal` | server.js:215 | The invoice total is the subtotal × 1.08 to within half a cent. |
| `Invoices.TotalIsSubtotalPlusTax` | server.js:213-215 | The separately computed × 1.08 total always equals subtotal + tax. |
| `Invoices.Decimal` | server.js:210 | The decimal rendering of a millisecond count is a non-empty string of digits `0`-`9`. It has no leading zero unless the count is 0. |
| `Invoices.DecimalRoundTrip` | server.js:210 | Reading back the decimal digits written for a millisecond count gives the same count. |
| `Invoices.InvoiceNumber` | server.js:210 | The invoice number is `INV-` followed by the decimal digits of the instant. |
| `Invoices.InvoiceNumberInjective` | server.js:210 | Invoices generated at different instants get different numbers. |
| `Invoices.MakeInvoice` | server.js:207-217 | The invoice copies the order's id, name and lines. Its subtotal is the order total, its tax is 8% of the subtotal to the half cent, and its total is subtotal + tax. |
| `Invoices.WorkedInvoices` | server.js:213-215 | A 7.00 order is invoiced with 0.56 tax for 7.56. A 10.00 order is invoiced with 0.80 tax for 10.80. |
| `Server.Store.constructor` | server.js:54-60 | The store starts with the given menu and no orders or invoices, and its invariant holds. |
| `Server.Store.SetAvailability` | server.js:94-119 | The new menu is `WithAvailability` of the old one, and that menu is returned. On not-found the menu is unchanged and the result is `NotFound`. Orders and invoices are untouched, and the store invariant is kept. |
| `Server.Store.CreateOrder` | server.js:122-163 | It succeeds exactly when every line is orderable. On failure `orders` is unchanged and the error is the first refused line's. On success exactly one order is appended. That order has the given id and instant, status "pending" and the defaulted name. Its lines are priced from the menu and its total is their sum. The menu and invoices are untouched. |
| `Server.Store.UpdateStatus` | server.js:176-193 | With an existing id, only the first matching order's status changes, to the given value, and that order is returned. With a missing id the result is `NotFound` and nothing changes. The menu and invoices are untouched. |
| `Server.Store.GenerateInvoice` | server.js:196-226 | With an existing order, exactly `MakeInvoice` of the first matching order is appended and returned. With a missing order the result is `NotFound` and nothing is appended. Orders are never modified. The invariant keeps every invoice backed by its order. |
| `Server.Store.GetInvoice` | server.js:239-250 | It succeeds exactly when some invoice has the id, and then returns the first such invoice. Otherwise the result is `NotFound`. |
| `Server.WalkInScenario` | server.js:122-226 | Two espressos at 3.50 give a pending walk-in order of 7.00. Its invoice shows subtotal 7.00, tax 0.56 and total 7.56. |
| `Cart.Total` | public/script.js:292 | The displayed total is the `reduce` of price × quantity over the selection, and it is 0 for an empty selection. |
| `Cart.Payload` | public/script.js:322-339 | An empty selection sends nothing. Otherwise the payload has one `{id, quantity}` per selected entry, in order. |
| `Cart.AddedAt` | public/script.js:249-261 | Picking an already selected item increments that entry's quantity in place. Otherwise a new entry of quantity 1 is appended. |
| `Cart.IncreasedAt` | public/script.js:296-302 | "+" increments only the first matching entry's quantity. With an unknown id the list is unchanged. |
| `Cart.DecreasedAt` | public/script.js:304-314 | "-" decrements the matching entry when its quantity is above 1. Otherwise it deletes that entry. With an unknown id the list is unchanged. |
| `Cart.RemovedAt` | public/script.js:316-319 | With distinct ids, filtering deletes exactly the matching entry and keeps the rest in their original order. |
| `Cart.AddedWellFormed` | public/script.js:249-261 | Adding keeps ids distinct and quantities at least 1. The length grows by one exactly when the item was not yet selected. |
| `Cart.IncreasedWellFormed` | public/script.js:296-302 | Increasing keeps the list well formed and keeps its length. |
| `Cart.DecreasedWellFormed` | public/script.js:304-314 | Decreasing keeps the list well formed. |
| `Cart.RemovedWellFormed` | public/script.js:316-319 | Removing keeps the list well formed. The length drops by one exactly when the id was selected. |
| `Cart.AddedTotal` | public/script.js:249-261 | Adding raises the displayed total by one unit's price. That is the listed price for an existing entry, or the menu price for a new one. |
| `Cart.IncreasedTotal` | public/script.js:296-302 | "+" raises the total by the entry's price, and by nothing for an unknown id. |
| `Cart.DecreasedTotal` | public/script.js:304-314 | "-" lowers the total by the entry's price, whether it decrements or drops the entry. |
| `Cart.RemovedTotal` | public/script.js:316-319 | Removing lowers the total by the entry's price × quantity. |
| `Cart.TotalNonNegative` | public/script.js:292 | The displayed total of a well-formed selection is never negative. |
| `Cart.ServerTotalMatchesCart` | public/script.js:322-339 | The server prices each line of the submitted payload, `Payload(s)`, from the menu. When the menu still has the prices the page captured, the sum of those subtotals equals the total the page showed. |
| `Cart.Selection.constructor` | public/script.js:7 | The selection starts empty. |
| `Cart.Selection.AddItem` | public/script.js:249-261 | The new list is `Added` of the old one, and it stays well formed. |
| `Cart.Selection.IncreaseQuantity` | public/script.js:296-302 | The new list is `Increased` of the old one, and it stays well formed. |
| `Cart.Selection.DecreaseQuantity` | public/script.js:304-314 | The new list is `Decreased` of the old one, and it stays well formed. This holds although the code's last-unit branch calls the remove-all filter. |
| `Cart.Selection.RemoveItem` | public/script.js:316-319 | The new list is `Removed` of the old one, and it stays well formed. |
| `Cart.Selection.Clear` | public/script.js:345 | After a successful submission the selection is empty. |
| `Views.FilterAvailable` | public/script.js:232 | The result holds exactly the available items of its input and is no longer than the input. |
| `Views.FilterAvailableCounts` | public/script.js:232 | The filter keeps each available item exactly as many times as its input has it, and keeps no unavailable item. |
| `Views.AvailableItems` | public/script.js:232 | The offered items are exactly the available menu items. The available coffee items come first, then the available snacks, each group in menu order. |
| `Views.ToggleTarget` | public/script.js:101-110 | An unknown id sends no request. Otherwise the requested flag is the opposite of the item's current flag. |
| `Views.ToggleTwiceRestores` | public/script.js:101-115 | A toggle applied by the server flips the item's flag. A second toggle restores the original menu. |
| `Views.SortNewestFirst` | public/script.js:145-147 | The listing has the same records, as a multiset, ordered so that creation instants never increase. |

## Left out

- File persistence is not modelled: `initializeData` with its default
  twelve-item menu, `readData` with its fallback to an empty collection,
  `writeData`, and the unused inventory file. The collections are in-memory
  fields, and a store starts from a given menu.
- Express routing, CORS and body parsing are not modelled. Status codes map
  onto the `Error` constructors.
- Order creation has other 400 responses, which are not modelled. Its catch
  turns every exception into a 400 (server.js:160-161). That covers a body with
  no `items` array (`items.map` on `undefined`), a `null` line, a menu file with
  no `coffee` or `snacks` group (`readData` falls back to `[]`), and a failed
  `writeData`.
- The 500 paths of the other handlers are not modelled, for example a menu
  file with no `coffee` group when setting availability, or a failed write.
- The three plain GET handlers are not modelled as separate members. They
  return the menu, the orders or the invoices as they are, which are the
  class's fields.
- `uuidv4()`, `Date.now()` and `new Date().toISOString()` become parameters.
  Instants are millisecond counts, and their ISO-8601 rendering is not
  modelled.
- Floating-point amounts are replaced by integer cents. The server stores the
  tax and the total as unrounded floating-point products (server.js:214-215);
  the model rounds each to the nearest cent, which is what the page's
  `toFixed(2)` display shows.
- Request quantities are integers. JSON could also carry fractional or
  non-numeric quantities, which are not modelled.
- Server.Store.SetAvailability: `available` is a `bool`. The code stores
  whatever the body carries (server.js:98,104). A body without it stores
  `undefined`, which `JSON.stringify` then drops, and the item then cannot be
  ordered.
- Server.Store.UpdateStatus: `status` is a `string`. The code stores any JSON
  value as given (server.js:180,187), including a missing one.
- Orders.NameOrDefault: the name is an `Option<string>`. The code's
  `customerName || 'Walk-in Customer'` (server.js:124,149) also keeps any other
  truthy JSON value, such as a number or an object, and replaces every falsy
  one (`0`, `false`, `null`) with the default.
- Everything in the page that touches the DOM is not modelled: markup, tabs,
  the invoice modal, notifications and their timers, and `fetch`. This
  includes reading and trimming the customer-name input, and hiding the
  status buttons of completed orders.
- Concurrent requests are not modelled. The code does each read-modify-write
  without a lock, and each method here is one sequential step.
- Users, authentication, roles, payments and reviews are not modelled,
  because there is no code for them.
- Server.Store.SetAvailability: the code's `for` loop over the category names with
  `break` is written as a search of the coffee group and then of the snacks
  group.
- Views.SortNewestFirst: proves order and permutation but not stability.
  JavaScript's sort keeps ties in their original order. The same function
  also serves the newest-first invoice listing (public/script.js:406-408).
