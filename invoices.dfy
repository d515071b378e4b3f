/** Invoices derived from orders (server.js, POST /api/invoices). Amounts are
    in cents: the 8% tax and the 1.08 total are each rounded to the nearest
    cent, halves rounded up. */
module Invoices {
  import opened Common
  import opened Orders

  /** An invoice: a copy of its order's name and lines with the tax applied;
      `createdAt` is the creation instant in milliseconds. */
  datatype Invoice = Invoice(id: Id, orderId: Id, invoiceNumber: string, customerName: string,
                             items: seq<OrderLine>, subtotal: int, tax: int, total: int,
                             createdAt: nat)

  const INVOICE_PREFIX: string := "INV-"

  function InvoiceId(inv: Invoice): Id { inv.id }

  /** 8% of `subtotal`, to the nearest cent (the tax rate is 8%). */
  function Tax(subtotal: int): (t: int)
    ensures -50 < 100 * t - 8 * subtotal <= 50
  {
    var n := 8 * subtotal + 50;
    assert n == 100 * (n / 100) + n % 100 && 0 <= n % 100 < 100;
    n / 100
  }

  /** `subtotal` times 1.08, to the nearest cent, computed on its own as the
      server does rather than as subtotal plus tax. */
  function ScaledTotal(subtotal: int): (t: int)
    ensures -50 < 100 * t - 108 * subtotal <= 50
  {
    var n := 108 * subtotal + 50;
    assert n == 100 * (n / 100) + n % 100 && 0 <= n % 100 < 100;
    n / 100
  }

  /** The rounding window holds exactly one cent value, so the tax is
      determined by its bound. */
  lemma TaxIsNearestCent(subtotal: int, t: int)
    requires -50 < 100 * t - 8 * subtotal <= 50
    ensures t == Tax(subtotal)
  {
    var d := t - Tax(subtotal);
    assert -100 < 100 * d < 100;
  }

  /** With cents rounded the same way, subtotal times 1.08 is exactly the
      subtotal plus the tax, so an invoice's figures always add up. */
  lemma {:induction false} TotalIsSubtotalPlusTax(subtotal: int)
    ensures ScaledTotal(subtotal) == subtotal + Tax(subtotal)
  {
    var t := subtotal + Tax(subtotal);
    assert -50 < 100 * t - 108 * subtotal <= 50;
    var d := t - ScaledTotal(subtotal);
    assert -100 < 100 * d < 100;
  }

  /** Decimal digits of `n`, most significant first, without leading zeros. */
  function Decimal(n: nat): (s: string)
    ensures |s| >= 1 && forall i :: 0 <= i < |s| ==> '0' <= s[i] <= '9'
    ensures s[0] == '0' ==> n == 0
  {
    if n < 10 then [DigitChar(n)] else Decimal(n / 10) + [DigitChar(n % 10)]
  }

  function DigitChar(d: nat): (c: char)
    requires d < 10
    ensures '0' <= c <= '9'
  {
    ['0', '1', '2', '3', '4', '5', '6', '7', '8', '9'][d]
  }

  function DigitValue(c: char): nat
  {
    if '0' <= c <= '9' then (c as int - '0' as int) as nat else 0
  }

  /** Reads a string of decimal digits back as a number. */
  function ParseDecimal(s: string): nat
  {
    if s == [] then 0 else ParseDecimal(s[..|s| - 1]) * 10 + DigitValue(s[|s| - 1])
  }

  lemma {:induction false} DecimalRoundTrip(n: nat)
    ensures ParseDecimal(Decimal(n)) == n
  {
    var s := Decimal(n);
    if n < 10 {
      DigitRoundTrip(n);
      assert s == [DigitChar(n)];
      assert ParseDecimal(s) == ParseDecimal([]) * 10 + DigitValue(DigitChar(n));
    } else {
      var q, d := n / 10, n % 10;
      assert s == Decimal(q) + [DigitChar(d)];
      assert s[..|s| - 1] == Decimal(q);
      DecimalRoundTrip(q);
      DigitRoundTrip(d);
      assert ParseDecimal(s) == q * 10 + d;
    }
  }

  lemma DigitRoundTrip(d: nat)
    requires d < 10
    ensures DigitValue(DigitChar(d)) == d
  {
  }

  /** The invoice number shown to customers, `INV-` followed by the creation
      instant in milliseconds. */
  function InvoiceNumber(millis: nat): (s: string)
    ensures |s| > |INVOICE_PREFIX| && s[..|INVOICE_PREFIX|] == INVOICE_PREFIX
    ensures s[|INVOICE_PREFIX|..] == Decimal(millis)
  {
    INVOICE_PREFIX + Decimal(millis)
  }

  /** Invoices created at different instants get different numbers. */
  lemma InvoiceNumberInjective(a: nat, b: nat)
    requires a != b
    ensures InvoiceNumber(a) != InvoiceNumber(b)
  {
    DecimalRoundTrip(a);
    DecimalRoundTrip(b);
  }

  /** The invoice for `order`: its name and lines copied, subtotal the order
      total, the 8% tax, and the total as subtotal times 1.08. */
  function MakeInvoice(order: Order, id: Id, millis: nat, createdAt: nat): (inv: Invoice)
    ensures inv.id == id && inv.orderId == order.id && inv.createdAt == createdAt
    ensures inv.invoiceNumber == InvoiceNumber(millis)
    ensures inv.customerName == order.customerName && inv.items == order.items
    ensures inv.subtotal == order.total
    ensures -50 < 100 * inv.tax - 8 * inv.subtotal <= 50
    ensures inv.total == inv.subtotal + inv.tax
  {
    TotalIsSubtotalPlusTax(order.total);
    Invoice(id, order.id, InvoiceNumber(millis), order.customerName, order.items,
            order.total, Tax(order.total), ScaledTotal(order.total), createdAt)
  }

  /** The worked figures: a 7.00 order is invoiced with 0.56 tax for 7.56,
      and a 10.00 order with 0.80 tax for 10.80. */
  lemma WorkedInvoices(order: Order, id: Id, millis: nat, createdAt: nat)
    ensures order.total == 700 ==>
      MakeInvoice(order, id, millis, createdAt).tax == 56 && MakeInvoice(order, id, millis, createdAt).total == 756
    ensures order.total == 1000 ==>
      MakeInvoice(order, id, millis, createdAt).tax == 80 && MakeInvoice(order, id, millis, createdAt).total == 1080
  {
  }
}
