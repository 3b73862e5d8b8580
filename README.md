# Inventix sales and inventory core, in Dafny

This project models the core of a small Flask shop application. The application keeps clients, products, sales and sale
lines in four SQLite tables. It registers a sale as one transaction, shows dashboard figures and exports sales and
inventory reports. The model also covers the browser-side sale form (`static/ventas.js`), which builds the cart and posts
the sale.

Modules:

- `Wrappers` (`wrappers.dfy`) defines `Option` and `Result`.
- `Text` (`text.dfy`) holds the text handling the core relies on:
  - the `FAC-00001` invoice number format;
  - JavaScript's `parseInt` and `trim`, and `split(' - ')[0]`;
  - the way SQLite reads text bound to an INTEGER column.
- `Inventory` (`inventory.dfy`) is the server side:
  - the row and payload datatypes;
  - the checks each handler meets, in the order it meets them, as pure functions returning `Result`;
  - class `Database`, which holds the four tables and their AUTOINCREMENT counters as fields. Its methods are the
    insert, delete and sale-registration handlers.
  - The item loop of `registrar_venta` is the method `ApplyItems`. It works on local copies of the tables, which play the
    part of the open transaction. `Database.Commit` publishes them only once every statement has succeeded.
- `Reports` (`reports.dfy`) covers the reports:
  - the two spreadsheet handlers as written, which fail as soon as the query returns a row (see "## Findings");
  - the row lists of the two PDF reports and of the spreadsheets as evidently intended, built by loops that sum the
    totals as they go;
  - the sales query's join.
- `Cart` (`cart.dfy`) is the sale form:
  - class `SaleForm` holds the script's global `productosEnVenta`, the table of cart lines, the shown total and the
    form fields;
  - the add guard is a function;
  - lemmas relate what the form sends to what the server accepts.

Conventions:

- Money (`precio`, `subtotal`, `total`) is an integer amount; stock and quantities are integers.
- The clock is a parameter (`now`, `fecha`, `hora`).
- JSON payloads use `Field<T>` for each key: `Missing`, `Null` or `Given(value)`. This lets the model tell a KeyError
  from a NOT NULL failure.

Behaviour of the code that the model keeps:

- A failed sale leaves no partial state. The handler never reaches `conn.commit()`, so SQLite's implicit transaction is
  discarded.
- A repeated invoice number is reported with SQLite's raw message, not a dedicated one.
- An empty item list is accepted, and the sale is recorded with no lines.
- `agregar_cliente` reports every IntegrityError as a repeated cédula. This includes a NULL in a NOT NULL column.
- The cart sends as `producto_id` the text of the line's first cell. That cell holds the text before `" - "` in the
  product option's caption. For the options `cargarProductos` adds, value and caption prefix come from the same cell and
  may both be the id. When that text does not spell an integer, the sale matches no product and takes no stock
  (`Cart.TextIdsMatchNothing`, `Cart.TextIdsTakeNoStock`).

## Model

| member | source | states |
|---|---|---|
| Text.InvoiceNumber | app.py:79-85 | with k sales the number is `FAC-` followed by digits whose value is k+1, padded to at least five digits and with no extra leading zero |
| Text.FirstInvoiceNumber | app.py:85 | the first invoice number is `FAC-00001` |
| Text.InvoiceNumbersDiffer | app.py:85 | different sale counts give different invoice numbers |
| Text.ZeroFill | app.py:85 | `{n:05d}`: the digits of n, zero-padded to the width, with the same value |
| Text.DecimalValueOfDigits | app.py:85 | the decimal spelling of n reads back as n |
| Text.ParseIntOfIntText | static/ventas.js:152 | `parseInt` reads back the quantity written into a cart cell |
| Text.StrictIntOfIntText | app.py:231-236 | SQLite reads an integer's own spelling, bound to an INTEGER column, as that integer |
| Text.TrimStartDropsSpace | static/ventas.js:151 | trimming the start removes exactly the leading run of white space and keeps the rest |
| Text.TrimEndDropsSpace | static/ventas.js:151 | trimming the end removes exactly the trailing run of white space and keeps the rest |
| Text.Trim | static/ventas.js:151 | `trim()` leaves no white space at either end |
| Text.LeadingDigitsLongest | static/ventas.js:152 | `parseInt` reads the longest run of digits at the start of the text |
| Text.ParseInt | static/ventas.js:67 | `parseInt` gives NaN exactly when no digit follows the leading white space and sign, and a negative number only after a `-` |
| Text.StrictInt | app.py:231-236 | text SQLite reads as an integer is read as the same integer by `parseInt` |
| Text.Before | static/ventas.js:100 | `split(' - ')[0]` is a prefix of the caption |
| Text.BeforeFirstOccurrence | static/ventas.js:100 | that prefix stops at the first `" - "`, or is the whole caption when there is none |
| Text.BeforeWithoutSeparator | static/ventas.js:100 | a caption without the separator is kept whole |
| Inventory.NewCliente | app.py:123-139 | the insert succeeds exactly when all five keys are present and non-null and the cédula is unused; the new row is the payload's five values with the next id and the clock; a failure other than a missing key is reported as a repeated cédula |
| Inventory.NewProducto | app.py:163-177 | the insert succeeds exactly when nombre, precio and stock are given; the row holds the payload's nombre, precio and stock; descripcion and proveedor are stored as given, NULL when null, and '' when missing |
| Inventory.IntegerAffinity | app.py:231-236 | only text is ever converted, and only to a number; text SQLite does not read as an integer stays text; the stored value converts no further (a number, or text that spells no integer), so a column-to-column JOIN agrees with `Matches` on the stored value; text converted to a number is read as that number by `parseInt` |
| Inventory.Matches | app.py:236 | `WHERE id = ?` selects a row exactly when the bound value is its id, as a number or as text SQLite reads as that number |
| Inventory.TextIdMatches | app.py:236 | an id sent as its own decimal text selects its row |
| Inventory.Without | app.py:146 | a delete keeps exactly the rows whose id differs, in order |
| Inventory.WithoutAscending | app.py:146 | a delete keeps the rows in id order |
| Inventory.WithoutAbsent | app.py:141-151 | deleting an id no row has leaves the table as it was |
| Inventory.WithoutPresent | app.py:141-151 | with unique ids, deleting an existing id removes exactly one row |
| Inventory.WithoutCount | app.py:141-151 | with unique ids, a delete removes one row when the id exists and leaves the table as it was otherwise |
| Inventory.CheckHeader | app.py:221-224 | the sale header is inserted exactly when its three keys are present and non-null and the invoice number is unused |
| Inventory.CheckItem | app.py:229-232 | an item's line is inserted exactly when its four keys are present and non-null |
| Inventory.CheckItems | app.py:228-237 | the item loop completes exactly when every item passes, giving the items in order |
| Inventory.CheckItemsFirstError | app.py:228-243 | the first failing item's message is the handler's answer |
| Inventory.CheckSale | app.py:209-243 | the whole sale passes exactly when the header and every item pass |
| Inventory.DetailRows | app.py:229-232 | one detalle_ventas row per item, in item order, with the sale's id and consecutive fresh ids |
| Inventory.Decrement | app.py:234-237 | the UPDATE changes only the stock column, only in the rows the id selects, and takes the quantity off each |
| Inventory.QtyForUnnamed | app.py:234-237 | a product no item names keeps its stock; an unknown producto_id updates nothing |
| Inventory.QtyForAppend | app.py:234-237 | quantities taken by two runs of items add up |
| Inventory.StockCanGoNegative | app.py:234-237 | for every accepted sale, a product its items take more of than it holds is left with negative stock |
| Inventory.SequentialInvoicesAreFresh | app.py:79-85 | with numbers handed out in sequence, the next one never hits the UNIQUE constraint |
| Inventory.Dashboard | app.py:93-103 | the dashboard shows the three row counts, and a total sold of 0 when there are no sales |
| Inventory.DashboardAfterSale | app.py:93-103 | a recorded sale adds one to the sale count and its total to the total sold |
| Inventory.SumTotalsAppend | app.py:102-103 | the sum of totals grows by the total of an appended sale |
| Inventory.Database.constructor | app.py:20-68 | the four tables start empty with their counters at zero |
| Inventory.Database.AgregarCliente | app.py:123-139 | on success exactly one row with the next id is appended; on failure clientes is unchanged; the other tables are unchanged either way; cédulas stay distinct |
| Inventory.Database.EliminarCliente | app.py:141-151 | always succeeds; removes exactly the rows with that id; nothing else changes |
| Inventory.Database.AgregarProducto | app.py:163-177 | on success exactly one row with a fresh id is appended; on failure nothing changes |
| Inventory.Database.EliminarProducto | app.py:179-189 | always succeeds; removes exactly the rows with that id; nothing else changes |
| Inventory.Database.RegistrarVenta | app.py:209-243 | succeeds exactly when the sale passes its checks; on success one ventas row, one detalle_ventas row per item in order, and each product's stock less the quantities its items take; on failure every table and counter is unchanged |
| Inventory.Database.Commit | app.py:239 | the commit publishes the sale, its lines and the new stock, keeping ids ascending and invoice numbers distinct |
| Inventory.ApplyItems | app.py:228-237 | the loop's lines and stock updates are exactly `DetailRows` and `StockTaken` of the checked items, or it stops with the first failing item's message |
| Inventory.AppendKeepsTable | app.py:123-139 | a row with the next id appended keeps the table in id order under its counter |
| Inventory.WithoutKeepsTable | app.py:141-151 | a delete keeps the table in id order under its counter |
| Inventory.CheckItemsStep | app.py:228-232 | one more passing item extends the checked items by that item |
| Inventory.StockOnlyKeepsIds | app.py:234-237 | stock updates keep productos in id order |
| Inventory.NewVentaKeepsInvariant | app.py:221-225 | a sale with the next id and an unused number keeps ventas ordered and its numbers distinct |
| Inventory.DetailRowsAfter | app.py:229-232 | appended lines keep detalle_ventas in id order under its counter |
| Reports.SalesSheetRows | app.py:270-297 | the sales spreadsheet as intended: header, one row per sale, an empty row, and a TOTAL row whose third cell is the sum of the totals |
| Reports.SalesSheetAsWritten | app.py:283-286 | the handler as written answers with the TypeError message whenever there is a sale, and builds the sheet only when there is none |
| Reports.InventorySheetAsWritten | app.py:338-340 | the handler as written answers with the TypeError message whenever there is a product, and the sheet is the header alone otherwise |
| Reports.SalesPdfRows | app.py:388-394 | header, one row per sale, then the TOTAL row with the sum as currency, with no empty row |
| Reports.InventoryRows | app.py:439-441 | the inventory PDF table: header and one row per product, with no total row |
| Reports.ClientsOf | app.py:257-259 | the join pairs a sale with exactly the clients whose id equals its cliente_id |
| Reports.LinesOf | app.py:256-261 | a sale paired with clients gives one line per client, in order, with the sale's number, total, date and time and the client's name |
| Reports.SalesQueryJoins | app.py:256-261 | the query is the inner join: every sale with every matching client gives a line, and every line is such a pair |
| Reports.ClientsOfCount | app.py:257-259 | with unique client ids, a sale joins one client when its client exists and none otherwise |
| Reports.OrphanSaleDropped | app.py:257-259 | a sale whose client was deleted is left out of the sales reports |
| Reports.ReportTotalIsDashboardTotal | app.py:389-394 | when every sale's client exists, the sales PDF's TOTAL equals the dashboard's total sold |
| Reports.FirstSaleTotal | app.py:389-391 | a sale whose client exists adds its total to the report's running sum once |
| Reports.SumLinesAppend | app.py:389-392 | the running total over two runs of sales adds up |
| Cart.AddCheck | static/ventas.js:70-93 | the first failing test in order gives the alert (client, product, valid quantity, stock); the line is added exactly when all four pass |
| Cart.AddCheckAsWritten | static/ventas.js:67-93 | the guard as written: a NaN quantity passes it; a number passes only when it is positive and within the stock |
| Cart.BlankQuantityPassesGuard | static/ventas.js:67-93 | a blank quantity passes the guard as written but not the corrected one |
| Cart.AddChecksAgreeOnNumbers | static/ventas.js:80-93 | the two guards differ only on a quantity that is not a number |
| Cart.CartCanExceedStock | static/ventas.js:88-93 | with the whole stock of the selected product already in the cart, a quantity up to that stock passes the guard again, and the appended entry leaves more in the cart than the stock |
| Cart.QtyInCartAppend | static/ventas.js:107-112 | an appended entry adds its quantity to its product's quantity in the cart |
| Cart.Lookup | static/ventas.js:86 | the option found has the selected value, and one is found exactly when some option has it |
| Cart.LookupFirst | static/ventas.js:86 | the option found is the one at the first index whose value is the selected one |
| Cart.SumSubtotalsConcat | static/ventas.js:119-128 | the total over two runs of lines adds up |
| Cart.RemovedRowTotal | static/ventas.js:104 | removing a line takes exactly its subtotal off the total |
| Cart.ItemOf | static/ventas.js:150-161 | the item read back from a cart line passes the server's item checks with the line's trimmed text, quantity, price and subtotal |
| Cart.Payload | static/ventas.js:164-169 | every key the server reads is present and not null, and every item passes the server's item checks |
| Cart.CartItemsPass | static/ventas.js:148-162 | every item the cart builds passes the server's item checks, carrying the line's text, quantity, price and subtotal |
| Cart.SentSaleAccepted | static/ventas.js:164-169 | the server accepts the sale the cart sends exactly when its invoice number is unused, and refuses a repeated one with the UNIQUE message |
| Cart.TextIdsTakeNoStock | app.py:234-237 | when no line's text spells an integer, the sale takes stock from no product |
| Cart.TextIdsMatchNothing | app.py:234-237 | a producto_id bound as text matches no product row |
| Cart.SaleForm.constructor | static/ventas.js:2 | the form starts with nothing picked, quantity 1 and an empty cart |
| Cart.SaleForm.CalcularTotal | static/ventas.js:119-129 | the shown total is the sum of the subtotals of the lines in the table; 0 when it is empty |
| Cart.SaleForm.AgregarProducto | static/ventas.js:65-117 | the alert is the guard's; on an alert nothing changes; otherwise one line and one entry with subtotal price times quantity are appended, the product's quantity in the cart grows by the quantity added, the quantity field is reset to 1 and the total grows by the subtotal |
| Cart.SaleForm.EliminarFila | static/ventas.js:104 | the line leaves the table, the total drops by its subtotal, and productosEnVenta keeps its entry |
| Cart.SaleForm.RegistrarVenta | static/ventas.js:131-169 | nothing is sent without a client or with an empty table; otherwise the body carries one item per line, in line order |
| Cart.SaleForm.LimpiarVenta | static/ventas.js:191-198 | nothing is picked, the quantity is 1, and the cart, table and total are empty |

## Left out

- HTTP is not modelled: Flask routing, `render_template`, `jsonify`, the HTTP 400 status and `send_file`. Handlers return a `Response(success, message)`.
- Connections, cursors and the database file are not modelled. Tables are sequences in memory and AUTOINCREMENT is a counter per table.
- The ORDER BY clauses are not modelled (by nombre for clients and products, by fecha DESC for sales). The report builders take the query's rows in the order given.
- Report styling is not modelled: fills, fonts, widths, titles and grid. Neither is the byte serialisation of the spreadsheets and PDFs.
- Floating point is not modelled. Money is an integer amount, so `toFixed(2)`, `parseFloat` of the price cells and the `f'${total:,.2f}'` currency text are left out.
- The clock is a parameter: `datetime.now()` and the report file names.
- The invoice-number race between two concurrent registrations is a concurrency effect and is not modelled.
- The `cargarClientes` and `cargarProductos` scrapers are not modelled. The product options, with their caption, price and stock, are given to the form.
- The handling of the fetch response is not modelled: the success alert, the page reload and the error alert.
- `static/clientes.js` and `static/productos.js` are not part of this model. They only forward form fields.
- Payload values of a type SQLite cannot bind (a list or an object in place of a value) are not modelled. Items that are not objects are not modelled either. Each key is missing, null or a value.
- Text.ParseInt: the `0x` hexadecimal prefix that `parseInt` accepts without a radix is not modelled.
- Text.IsJsSpace: covers the ASCII white space, the no-break space, the byte order mark and the line and paragraph separators. It does not cover the rest of Unicode's space separators.
- Text.StrictInt: SQLite's conversion of text with surrounding spaces, or of `3.0`, to an integer is not modelled.
- Cart.ProductOption: the stock is an integer. A stock cell that `parseInt` cannot read, which would make the stock test pass, is not modelled.
- Cart.SaleForm.RegistrarVenta: the total is read back from the shown text with `parseFloat`. With integer money this is the shown total itself.
- Integer width is not modelled. Quantities, prices, stock and ids are unbounded integers. Python's sqlite3 raises OverflowError when it binds an integer outside 64 bits, which would fail that insert or sale; the model accepts it.
- Text.ParseIntOfIntText: holds for every integer, while in JavaScript it holds only below 2^53 in magnitude. Numbers above that are inexact, and `${n}` spells 10^21 and above in exponent form (`1e+21`), which `parseInt` reads back as 1.
- The first cell of a cart line is written with `innerHTML` without escaping, so a caption holding markup (`Tornillo <M6>`) is re-parsed as HTML, and its `textContent` differs from the caption text. The model takes the cell's text to be `Trim(Before(caption, " - "))`, the caption read as plain text (`Cart.ItemOf`, `Cart.SaleForm.AgregarProducto`).
- Cart.SaleForm.AgregarProducto: uses the corrected guard (see Findings). The NaN line the guard as written lets in is exhibited only through `Cart.AddCheckAsWritten`.

## Findings

| source | as written | input that shows it | evidently intended | confidence | as-written member | corrected member |
|---|---|---|---|---|---|---|
| app.py:283-286 | `ws.append(venta)` is given the query row itself, a `sqlite3.Row`, which `Worksheet.append` refuses because it is not a list, tuple, range, generator or dict; the TypeError reaches the `except` and the handler answers `success: false` with its message | one sale whose client exists | each row turned into a list before it is appended, as the sales PDF does at app.py:389-391, giving the header, the sales, an empty row and the TOTAL row | not executed | Reports.SalesSheetAsWritten | Reports.SalesSheetRows |
| app.py:338-340 | `ws.append(producto)` is given the query row itself and raises the same TypeError, so the inventory spreadsheet fails for any product | one product | each row turned into a list, as the inventory PDF does at app.py:439-441, giving the header and one row per product | not executed | Reports.InventorySheetAsWritten | Reports.InventoryRows |
| static/ventas.js:67-93 | `parseInt` of a blank or non-numeric quantity is NaN; both `cantidad <= 0` and `cantidad > stock` are false for NaN, so the line is added with quantity and subtotal NaN | quantity field `""` with a client and a product picked (`Cart.BlankQuantityPassesGuard`) | a quantity that is not a positive number is refused with 'Ingrese una cantidad válida' | not executed | Cart.AddCheckAsWritten | Cart.AddCheck |

