/// The sale form of the sales page: the client and product pickers, the
/// quantity field, the table of lines in the cart with its total, and the
/// JSON body the form posts to the sale registration endpoint.
module Cart {
  import opened Wrappers
  import opened Text
  import opened Inventory

  /// An entry of the product picker: its value (the product id as text),
  /// the text it shows, and the price and stock it carries.
  datatype ProductOption = ProductOption(id: string, caption: string, precio: int, stock: int)

  /// An element of `productosEnVenta`.
  datatype CartEntry = CartEntry(productoId: string, cantidad: int, precio: int, subtotal: int)

  /// A line of the cart table: the product text in its first cell, then
  /// quantity, price and subtotal.
  datatype CartRow = CartRow(producto: string, cantidad: int, precio: int, subtotal: int)

  /// What pressing the register button does: an alert and nothing sent, or
  /// the body posted to the server.
  datatype Submission = NotSent(alert: string) | Sent(venta: VentaPayload)

  const SeleccioneCliente := "Seleccione un cliente"
  const SeleccioneProducto := "Seleccione un producto"
  const CantidadInvalida := "Ingrese una cantidad válida"
  const SinStock := "No hay stock suficiente"
  const AgregueProducto := "Agregue al menos un producto"

  /// The separator between the product text and its price in an option's
  /// label.
  const Separator := " - "

  /// The sum of the subtotals of the cart lines.
  function SumSubtotals(rows: seq<CartRow>): int
  {
    if rows == [] then 0 else SumSubtotals(rows[..|rows| - 1]) + rows[|rows| - 1].subtotal
  }

  lemma {:induction false} SumSubtotalsConcat(a: seq<CartRow>, b: seq<CartRow>)
    ensures SumSubtotals(a + b) == SumSubtotals(a) + SumSubtotals(b)
    decreases |b|
  {
    if b == [] {
      assert a + b == a;
    } else {
      assert (a + b)[..|a + b| - 1] == a + b[..|b| - 1];
      SumSubtotalsConcat(a, b[..|b| - 1]);
    }
  }

  /// The running total over the first `i + 1` lines adds line `i`.
  lemma SumSubtotalsTake(rows: seq<CartRow>, i: nat)
    requires i < |rows|
    ensures SumSubtotals(rows[..i + 1]) == SumSubtotals(rows[..i]) + rows[i].subtotal
  {
    assert rows[..i + 1][..i] == rows[..i];
  }

  /// The total splits at any line boundary.
  lemma SumSubtotalsTakeDrop(rows: seq<CartRow>, n: nat)
    requires n <= |rows|
    ensures SumSubtotals(rows) == SumSubtotals(rows[..n]) + SumSubtotals(rows[n..])
  {
    SumSubtotalsConcat(rows[..n], rows[n..]);
    assert rows[..n] + rows[n..] == rows;
  }

  /// Removing the line at `i` takes exactly its subtotal off the total.
  lemma RemovedRowTotal(rows: seq<CartRow>, i: nat)
    requires i < |rows|
    ensures SumSubtotals(rows[..i] + rows[i + 1..]) == SumSubtotals(rows) - rows[i].subtotal
  {
    SumSubtotalsConcat(rows[..i], rows[i + 1..]);
    SumSubtotalsTakeDrop(rows, i + 1);
    SumSubtotalsTake(rows, i);
  }

  /// `select.querySelector('option[value="v"]')`: the first option whose
  /// value is `v`.
  function Lookup(options: seq<ProductOption>, v: string): (r: Option<ProductOption>)
    ensures r.Some? <==> exists k :: 0 <= k < |options| && options[k].id == v
    ensures r.Some? ==> r.value in options && r.value.id == v
  {
    if options == [] then None
    else if options[0].id == v then Some(options[0])
    else
      var r := Lookup(options[1..], v);
      assert forall k :: 1 <= k < |options| ==> options[k] == options[1..][k - 1];
      r
  }

  /// `querySelector` returns the first match: the option found is the one
  /// at the first index whose value is `v`.
  lemma {:induction false} LookupFirst(options: seq<ProductOption>, v: string, k: nat)
    requires k < |options| && options[k].id == v
    requires forall j :: 0 <= j < k ==> options[j].id != v
    ensures Lookup(options, v) == Some(options[k])
  {
    if k > 0 {
      assert options[0].id != v;
      assert forall j :: 0 <= j < k - 1 ==> options[1..][j] == options[j + 1];
      LookupFirst(options[1..], v, k - 1);
    }
  }

  /// The stock of the selected product, as the guard reads it; with no
  /// product selected the guard stops before it.
  function StockShown(options: seq<ProductOption>, v: string): int
  {
    var o := Lookup(options, v);
    if o.Some? then o.value.stock else 0
  }

  // --------------------------------------------------------- the add guard

  /// The guard of `agregarProducto` as written. `parseInt` of a blank or
  /// non-numeric field is NaN (`None`), and every comparison with NaN is
  /// false, so neither quantity test stops it.
  function AddCheckAsWritten(cliente: string, productoId: string, cantidad: Option<int>, stock: int): (r: Option<string>)
    ensures cliente != "" && productoId != "" && cantidad.None? ==> r.None?
    ensures r.None? ==> cliente != "" && productoId != "" && (cantidad.None? || 0 < cantidad.value <= stock)
  {
    if cliente == "" then Some(SeleccioneCliente)
    else if productoId == "" then Some(SeleccioneProducto)
    else if cantidad.Some? && cantidad.value <= 0 then Some(CantidadInvalida)
    else if cantidad.Some? && cantidad.value > stock then Some(SinStock)
    else None
  }

  /// A blank quantity field passes the guard as written: the cart gets a
  /// line whose quantity is NaN.
  lemma BlankQuantityPassesGuard()
    ensures ParseInt("") == None
    ensures AddCheckAsWritten("1", "7", ParseInt(""), 5) == None
    ensures AddCheck("1", "7", ParseInt(""), 5) == Some(CantidadInvalida)
  {
  }

  /// The guard of `agregarProducto` with a quantity that is not a number
  /// refused as invalid: the first failing test, in order, gives the alert;
  /// `None` means the line is added.
  function AddCheck(cliente: string, productoId: string, cantidad: Option<int>, stock: int): (r: Option<string>)
    ensures r.None? <==> cliente != "" && productoId != "" && cantidad.Some? && 0 < cantidad.value <= stock
    ensures r == Some(SeleccioneCliente) <==> cliente == ""
    ensures r == Some(SeleccioneProducto) <==> cliente != "" && productoId == ""
    ensures r == Some(CantidadInvalida) <==>
      cliente != "" && productoId != "" && (cantidad.None? || cantidad.value <= 0)
    ensures r == Some(SinStock) <==>
      cliente != "" && productoId != "" && cantidad.Some? && 0 < cantidad.value && stock < cantidad.value
  {
    if cliente == "" then Some(SeleccioneCliente)
    else if productoId == "" then Some(SeleccioneProducto)
    else if cantidad.None? || cantidad.value <= 0 then Some(CantidadInvalida)
    else if cantidad.value > stock then Some(SinStock)
    else None
  }

  /// The two guards differ only on a quantity that is not a number.
  lemma AddChecksAgreeOnNumbers(cliente: string, productoId: string, cantidad: Option<int>, stock: int)
    ensures cantidad.Some? ==>
      AddCheckAsWritten(cliente, productoId, cantidad, stock) == AddCheck(cliente, productoId, cantidad, stock)
    ensures cantidad.None? && cliente != "" && productoId != "" ==>
      AddCheckAsWritten(cliente, productoId, cantidad, stock) == None
  {
  }

  /// The total quantity of product `id` already in the cart.
  function QtyInCart(entries: seq<CartEntry>, id: string): int
  {
    if entries == [] then 0
    else
      var last := entries[|entries| - 1];
      QtyInCart(entries[..|entries| - 1], id) + (if last.productoId == id then last.cantidad else 0)
  }

  /// An entry appended to the cart adds its quantity to its product's.
  lemma QtyInCartAppend(entries: seq<CartEntry>, e: CartEntry, id: string)
    ensures QtyInCart(entries + [e], id) == QtyInCart(entries, id) + (if e.productoId == id then e.cantidad else 0)
  {
    assert (entries + [e])[..|entries|] == entries;
  }

  /// The stock test looks only at the quantity being added, never at what
  /// the cart already holds. With the whole stock of the selected product
  /// already in `productosEnVenta`, a quantity up to that stock passes the
  /// guard again, and the entry `agregarProducto` then appends leaves more
  /// of the product in the cart than there is stock.
  lemma CartCanExceedStock(cliente: string, options: seq<ProductOption>, producto: string,
                           cantidad: string, entries: seq<CartEntry>)
    requires cliente != "" && producto != "" && Lookup(options, producto).Some?
    requires QtyInCart(entries, producto) >= StockShown(options, producto)
    requires ParseInt(cantidad).Some? && 0 < ParseInt(cantidad).value <= StockShown(options, producto)
    ensures AddCheck(cliente, producto, ParseInt(cantidad), StockShown(options, producto)) == None
    ensures var o, c := Lookup(options, producto).value, ParseInt(cantidad).value;
      QtyInCart(entries + [CartEntry(producto, c, o.precio, o.precio * c)], producto) > o.stock
  {
    var o, c := Lookup(options, producto).value, ParseInt(cantidad).value;
    QtyInCartAppend(entries, CartEntry(producto, c, o.precio, o.precio * c), producto);
  }

  // ---------------------------------------------------- the sent payload

  /// JSON's rendering of a number that may be NaN.
  function JsonNumber(n: Option<int>): Field<int>
  {
    if n.Some? then Given(n.value) else Null
  }

  /// The item `registrarVenta` reads back from a cart line's cells: the
  /// trimmed text of the first cell and `parseInt` of the quantity cell.
  function ItemOf(row: CartRow): (r: ItemPayload)
    ensures CheckItem(r) == Ok(Item(Txt(Trim(row.producto)), row.cantidad, row.precio, row.subtotal))
  {
    TrimIntText(row.cantidad);
    ParseIntOfIntText(row.cantidad);
    ItemPayload(Given(Txt(Trim(row.producto))), JsonNumber(ParseInt(Trim(IntText(row.cantidad)))),
                Given(row.precio), Given(row.subtotal))
  }

  /// `f` applied to each line, in line order.
  function MapRows<T>(f: CartRow -> T, rows: seq<CartRow>): (r: seq<T>)
    ensures |r| == |rows| && forall k :: 0 <= k < |rows| ==> r[k] == f(rows[k])
  {
    if rows == [] then [] else MapRows(f, rows[..|rows| - 1]) + [f(rows[|rows| - 1])]
  }

  lemma MapRowsStep<T>(f: CartRow -> T, rows: seq<CartRow>, i: nat)
    requires i < |rows|
    ensures MapRows(f, rows[..i + 1]) == MapRows(f, rows[..i]) + [f(rows[i])]
  {
    assert rows[..i + 1][..i] == rows[..i];
  }

  /// The items of the lines, in line order.
  function ItemsOf(rows: seq<CartRow>): seq<ItemPayload>
  {
    MapRows(ItemOf, rows)
  }

  /// The body `registrarVenta` posts: every key the server reads is there
  /// and not null, and every item passes the server's item checks.
  function Payload(numeroFactura: string, cliente: string, total: int, rows: seq<CartRow>): (r: VentaPayload)
    ensures r.numeroFactura.Given? && r.clienteId.Given? && r.total.Given? && r.items.Given?
    ensures CheckItems(r.items.value).Ok? && |CheckItems(r.items.value).value| == |rows|
  {
    CartItemsPass(rows);
    VentaPayload(Given(numeroFactura), Given(Txt(cliente)), Given(total), Given(ItemsOf(rows)))
  }

  /// `${n}` has no white space at either end.
  lemma TrimIntText(n: int)
    ensures Trim(IntText(n)) == IntText(n)
  {
    var m: nat := if n < 0 then -n else n;
    var d := Digits(m);
    assert IsDigit(d[|d| - 1]);
    assert IntText(n)[|IntText(n)| - 1] == d[|d| - 1];
    TrimUntouched(IntText(n));
  }

  /// Every line the cart sends passes the server's item checks, as the item
  /// with the line's trimmed product text, quantity, price and subtotal.
  lemma CartItemsPass(rows: seq<CartRow>)
    ensures CheckItems(ItemsOf(rows)).Ok?
    ensures forall k :: 0 <= k < |rows| ==>
      CheckItems(ItemsOf(rows)).value[k] ==
        Item(Txt(Trim(rows[k].producto)), rows[k].cantidad, rows[k].precio, rows[k].subtotal)
  {
    var items := ItemsOf(rows);
    forall k | 0 <= k < |rows|
      ensures CheckItem(items[k]) ==
        Ok(Item(Txt(Trim(rows[k].producto)), rows[k].cantidad, rows[k].precio, rows[k].subtotal))
    {
      TrimIntText(rows[k].cantidad);
      ParseIntOfIntText(rows[k].cantidad);
    }
  }

  /// The server takes the sale the cart sends exactly when its invoice
  /// number is not yet used.
  lemma SentSaleAccepted(vs: seq<Venta>, numeroFactura: string, cliente: string, total: int, rows: seq<CartRow>)
    ensures CheckSale(vs, Payload(numeroFactura, cliente, total, rows)).Ok? <==> !FacturaTaken(vs, numeroFactura)
    ensures FacturaTaken(vs, numeroFactura) ==>
      CheckSale(vs, Payload(numeroFactura, cliente, total, rows)) == Err(FacturaRepetida)
  {
    CartItemsPass(rows);
  }

  /// The first cell holds display text, not the product id: when no line's
  /// text spells an integer, the sale takes stock from no product at all.
  lemma TextIdsTakeNoStock(rows: seq<CartRow>, id: int)
    requires forall k :: 0 <= k < |rows| ==> StrictInt(Trim(rows[k].producto)).None?
    ensures CheckItems(ItemsOf(rows)).Ok? && QtyFor(CheckItems(ItemsOf(rows)).value, id) == 0
  {
    CartItemsPass(rows);
    TextIdsMatchNothing(rows, CheckItems(ItemsOf(rows)).value, id);
    QtyForUnnamed(CheckItems(ItemsOf(rows)).value, id);
  }

  lemma TextIdsMatchNothing(rows: seq<CartRow>, its: seq<Item>, id: int)
    requires |its| == |rows|
    requires forall k :: 0 <= k < |rows| ==> its[k].productoId == Txt(Trim(rows[k].producto))
    requires forall k :: 0 <= k < |rows| ==> StrictInt(Trim(rows[k].producto)).None?
    ensures forall k :: 0 <= k < |its| ==> !Matches(its[k].productoId, id)
  {
  }

  // ------------------------------------------------------------ the form

  /// The globals and page fields `ventas.js` reads and writes.
  class SaleForm {
    var cliente: string
    var producto: string
    var options: seq<ProductOption>
    var cantidad: string
    var numeroFactura: string
    var productosEnVenta: seq<CartEntry>
    var rows: seq<CartRow>
    var totalVenta: int

    /// The shown total is the sum of the lines, every line came in through
    /// the guard, and the product picker shows one of its options.
    ghost predicate Valid()
      reads this
    {
      && totalVenta == SumSubtotals(rows)
      && |rows| <= |productosEnVenta|
      && (forall k :: 0 <= k < |rows| ==> rows[k].cantidad > 0 && rows[k].subtotal == rows[k].precio * rows[k].cantidad)
      && (producto == "" || Lookup(options, producto).Some?)
    }

    /// The page as loaded: nothing picked, quantity 1, an empty cart.
    constructor (numeroFactura: string, options: seq<ProductOption>)
      ensures Valid()
      ensures this.numeroFactura == numeroFactura && this.options == options
      ensures cliente == "" && producto == "" && cantidad == "1"
      ensures productosEnVenta == [] && rows == [] && totalVenta == 0
    {
      this.numeroFactura := numeroFactura;
      this.options := options;
      cliente, producto, cantidad := "", "", "1";
      productosEnVenta, rows, totalVenta := [], [], 0;
    }

    /// `calcularTotal`: the total of the lines now in the table.
    method CalcularTotal()
      modifies this`totalVenta
      ensures totalVenta == SumSubtotals(rows)
    {
      var total := 0;
      for i := 0 to |rows|
        invariant total == SumSubtotals(rows[..i])
      {
        assert rows[..i + 1][..i] == rows[..i];
        total := total + rows[i].subtotal;
      }
      assert rows[..|rows|] == rows;
      totalVenta := total;
    }

    /// `agregarProducto`: the guard, then one line added to the table and
    /// one entry to `productosEnVenta`, the quantity field back to 1 and the
    /// total recomputed.
    method AgregarProducto() returns (alert: Option<string>)
      requires Valid()
      modifies this
      ensures Valid()
      ensures alert == AddCheck(old(cliente), old(producto), ParseInt(old(cantidad)), StockShown(old(options), old(producto)))
      ensures alert.Some? ==> unchanged(this)
      ensures alert.None? ==>
        var o, c := Lookup(old(options), old(producto)).value, ParseInt(old(cantidad)).value;
        && rows == old(rows) + [CartRow(Before(o.caption, Separator), c, o.precio, o.precio * c)]
        && productosEnVenta == old(productosEnVenta) + [CartEntry(old(producto), c, o.precio, o.precio * c)]
        && totalVenta == old(totalVenta) + o.precio * c
        && QtyInCart(productosEnVenta, producto) == QtyInCart(old(productosEnVenta), producto) + c
        && cantidad == "1"
        && cliente == old(cliente) && producto == old(producto) && options == old(options)
        && numeroFactura == old(numeroFactura)
    {
      var c := ParseInt(cantidad);
      if cliente == "" {
        return Some(SeleccioneCliente);
      }
      if producto == "" {
        return Some(SeleccioneProducto);
      }
      if c.None? || c.value <= 0 {
        return Some(CantidadInvalida);
      }
      var o := Lookup(options, producto).value;
      if c.value > o.stock {
        return Some(SinStock);
      }
      var subtotal := o.precio * c.value;
      var row := CartRow(Before(o.caption, Separator), c.value, o.precio, subtotal);
      ghost var before := rows;
      assert (before + [row])[..|before|] == before;
      QtyInCartAppend(productosEnVenta, CartEntry(producto, c.value, o.precio, subtotal), producto);
      productosEnVenta := productosEnVenta + [CartEntry(producto, c.value, o.precio, subtotal)];
      rows := rows + [row];
      cantidad := "1";
      CalcularTotal();
      alert := None;
    }

    /// The remove button of line `i`: the line leaves the table and the
    /// total is recomputed; `productosEnVenta` keeps its entry.
    method EliminarFila(i: nat)
      requires Valid() && i < |rows|
      modifies this
      ensures Valid()
      ensures rows == old(rows[..i] + rows[i + 1..])
      ensures totalVenta == old(totalVenta) - old(rows[i].subtotal)
      ensures productosEnVenta == old(productosEnVenta)
      ensures cliente == old(cliente) && producto == old(producto) && options == old(options)
      ensures cantidad == old(cantidad) && numeroFactura == old(numeroFactura)
    {
      RemovedRowTotal(rows, i);
      rows := rows[..i] + rows[i + 1..];
      CalcularTotal();
    }

    /// `registrarVenta` up to the request: an alert when no client is picked
    /// or the table is empty, otherwise the body with one item per line, in
    /// line order.
    method RegistrarVenta() returns (s: Submission)
      ensures cliente == "" ==> s == NotSent(SeleccioneCliente)
      ensures cliente != "" && rows == [] ==> s == NotSent(AgregueProducto)
      ensures cliente != "" && rows != [] ==> s == Sent(Payload(numeroFactura, cliente, totalVenta, rows))
    {
      if cliente == "" {
        return NotSent(SeleccioneCliente);
      }
      if |rows| == 0 {
        return NotSent(AgregueProducto);
      }
      var items: seq<ItemPayload> := [];
      for i := 0 to |rows|
        invariant items == ItemsOf(rows[..i])
      {
        MapRowsStep(ItemOf, rows, i);
        items := items + [ItemOf(rows[i])];
      }
      assert rows[..|rows|] == rows;
      s := Sent(VentaPayload(Given(numeroFactura), Given(Txt(cliente)), Given(totalVenta), Given(items)));
    }

    /// `limpiarVenta`: nothing picked, quantity 1, an empty cart, total 0.
    method LimpiarVenta()
      requires Valid()
      modifies this
      ensures Valid()
      ensures cliente == "" && producto == "" && cantidad == "1"
      ensures productosEnVenta == [] && rows == [] && totalVenta == 0
      ensures options == old(options) && numeroFactura == old(numeroFactura)
    {
      cliente, producto, cantidad := "", "", "1";
      rows, productosEnVenta, totalVenta := [], [], 0;
    }
  }
}
