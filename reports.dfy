/// The row lists behind the four report downloads: the sales and inventory
/// spreadsheets and the sales and inventory PDF tables. The spreadsheet
/// handlers hand each query row to the sheet as it comes from the cursor,
/// which the sheet refuses, so they fail as soon as there is a row; the
/// row lists below are the ones they evidently intend, which the PDF
/// handlers do build. Styling, column widths and the byte serialisation of
/// the documents are not modelled.
module Reports {
  import opened Wrappers
  import opened Inventory

  /// A table cell: text, a number, an empty cell standing for SQL NULL, or a money amount written
  /// out as currency text.
  datatype Cell = Str(s: string) | Number(n: int) | Blank | Currency(amount: int)

  type Row = seq<Cell>

  /// One row of the sales query: invoice number, client name, total, date
  /// and time.
  datatype SaleLine = SaleLine(factura: string, cliente: string, total: int, fecha: string, hora: string)

  const SalesHeader: Row := [Str("Factura"), Str("Cliente"), Str("Total"), Str("Fecha"), Str("Hora")]

  const InventoryHeader: Row :=
    [Str("Producto"), Str("Descripción"), Str("Precio"), Str("Stock"), Str("Proveedor")]

  function SaleCells(l: SaleLine): Row
  {
    [Str(l.factura), Str(l.cliente), Number(l.total), Str(l.fecha), Str(l.hora)]
  }

  function TextOrNull(s: Option<string>): Cell
  {
    if s.Some? then Str(s.value) else Blank
  }

  /// The columns the inventory query selects: nombre, descripcion, precio,
  /// stock, proveedor.
  function ProductCells(p: Producto): Row
  {
    [Str(p.nombre), TextOrNull(p.descripcion), Number(p.precio), Number(p.stock), TextOrNull(p.proveedor)]
  }

  /// The closing row of a sales report, with the total in the third column.
  function TotalRow(total: Cell): Row
  {
    [Str("TOTAL"), Str(""), total, Str(""), Str("")]
  }

  /// The sum of the sale totals, as the report loops accumulate it.
  function SumLines(ls: seq<SaleLine>): int
  {
    if ls == [] then 0 else SumLines(ls[..|ls| - 1]) + ls[|ls| - 1].total
  }

  /// The message of the TypeError `Worksheet.append` raises for a row that
  /// is not a list, tuple, range, generator or dict, as a query row is.
  const RowNotAppendable :=
    "Value must be a list, tuple, range or generator, or a dict. Supplied value is <class 'sqlite3.Row'>"

  /// The sales spreadsheet handler as written: the first sale row it
  /// appends raises, and the handler answers with the error's message; only
  /// with no sales does it build the sheet, which then is the intended one.
  method SalesSheetAsWritten(lines: seq<SaleLine>) returns (r: Result<seq<Row>>)
    ensures r.Ok? <==> lines == []
    ensures r.Err? ==> r.error == RowNotAppendable
    ensures r.Ok? ==> r.value == [SalesHeader, [], TotalRow(Number(0))]
  {
    if lines != [] {
      return Err(RowNotAppendable);
    }
    var rows := SalesSheetRows(lines);
    r := Ok(rows);
  }

  /// The inventory spreadsheet handler as written: the first product row
  /// it appends raises; with no products the sheet is the header alone.
  method InventorySheetAsWritten(products: seq<Producto>) returns (r: Result<seq<Row>>)
    ensures r.Ok? <==> products == []
    ensures r.Err? ==> r.error == RowNotAppendable
    ensures r.Ok? ==> r.value == [InventoryHeader]
  {
    if products != [] {
      return Err(RowNotAppendable);
    }
    var rows := InventoryRows(products);
    r := Ok(rows);
  }

  /// The rows of the sales spreadsheet, with each query row turned into a
  /// list before it is appended: the header, one row per sale in the order
  /// of the query, an empty row, and the TOTAL row with the sum of the sale
  /// totals as a number.
  method SalesSheetRows(lines: seq<SaleLine>) returns (rows: seq<Row>)
    ensures |rows| == |lines| + 3 && rows[0] == SalesHeader
    ensures forall k :: 0 <= k < |lines| ==> rows[k + 1] == SaleCells(lines[k])
    ensures rows[|lines| + 1] == []
    ensures rows[|lines| + 2] == TotalRow(Number(SumLines(lines)))
  {
    rows := [SalesHeader];
    var total := 0;
    for i := 0 to |lines|
      invariant |rows| == i + 1 && rows[0] == SalesHeader
      invariant forall k :: 0 <= k < i ==> rows[k + 1] == SaleCells(lines[k])
      invariant total == SumLines(lines[..i])
    {
      rows := rows + [SaleCells(lines[i])];
      total := total + lines[i].total;
      assert lines[..i + 1][..i] == lines[..i];
    }
    assert lines[..|lines|] == lines;
    rows := rows + [[], TotalRow(Number(total))];
  }

  /// The rows of the sales PDF table: the header, one row per sale, and the
  /// TOTAL row with the sum written as currency; no empty row before it.
  method SalesPdfRows(lines: seq<SaleLine>) returns (rows: seq<Row>)
    ensures |rows| == |lines| + 2 && rows[0] == SalesHeader
    ensures forall k :: 0 <= k < |lines| ==> rows[k + 1] == SaleCells(lines[k])
    ensures rows[|lines| + 1] == TotalRow(Currency(SumLines(lines)))
  {
    rows := [SalesHeader];
    var total := 0;
    for i := 0 to |lines|
      invariant |rows| == i + 1 && rows[0] == SalesHeader
      invariant forall k :: 0 <= k < i ==> rows[k + 1] == SaleCells(lines[k])
      invariant total == SumLines(lines[..i])
    {
      rows := rows + [SaleCells(lines[i])];
      total := total + lines[i].total;
      assert lines[..i + 1][..i] == lines[..i];
    }
    assert lines[..|lines|] == lines;
    rows := rows + [TotalRow(Currency(total))];
  }

  /// The rows of the inventory PDF table: the header and one row per
  /// product, with no total row. With each query row turned into a list,
  /// the inventory spreadsheet would hold the same rows.
  method InventoryRows(products: seq<Producto>) returns (rows: seq<Row>)
    ensures |rows| == |products| + 1 && rows[0] == InventoryHeader
    ensures forall k :: 0 <= k < |products| ==> rows[k + 1] == ProductCells(products[k])
  {
    rows := [InventoryHeader];
    for i := 0 to |products|
      invariant |rows| == i + 1 && rows[0] == InventoryHeader
      invariant forall k :: 0 <= k < i ==> rows[k + 1] == ProductCells(products[k])
    {
      rows := rows + [ProductCells(products[i])];
    }
  }

  // ------------------------------------------------------- the sales query

  /// The clients the JOIN pairs with a sale whose cliente_id is `cid`.
  function ClientsOf(cs: seq<Cliente>, cid: SqlValue): (r: seq<Cliente>)
    ensures forall c :: c in r <==> c in cs && Matches(cid, c.id)
  {
    if cs == [] then []
    else (if Matches(cid, cs[0].id) then [cs[0]] else []) + ClientsOf(cs[1..], cid)
  }

  /// The line the query gives for sale `v` paired with client `c`.
  function JoinLine(v: Venta, c: Cliente): SaleLine
  {
    SaleLine(v.numeroFactura, c.nombre, v.total, v.fecha, v.hora)
  }

  /// The lines of sale `v` with each of the clients `cs`, in their order.
  function LinesOf(v: Venta, cs: seq<Cliente>): (r: seq<SaleLine>)
    ensures |r| == |cs| && forall k :: 0 <= k < |cs| ==> r[k] == JoinLine(v, cs[k])
  {
    if cs == [] then []
    else [JoinLine(v, cs[0])] + LinesOf(v, cs[1..])
  }

  /// `SELECT v.numero_factura, c.nombre, v.total, v.fecha, v.hora FROM
  /// ventas v JOIN clientes c ON v.cliente_id = c.id`, sale by sale (the
  /// ORDER BY is not modelled).
  function SalesQuery(cs: seq<Cliente>, vs: seq<Venta>): seq<SaleLine>
  {
    if vs == [] then [] else LinesOf(vs[0], ClientsOf(cs, vs[0].clienteId)) + SalesQuery(cs, vs[1..])
  }

  /// The query is the inner join: every sale paired with every client its
  /// cliente_id matches gives a line, and every line is such a pair.
  lemma {:induction false} SalesQueryJoins(cs: seq<Cliente>, vs: seq<Venta>)
    ensures forall v, c :: v in vs && c in cs && Matches(v.clienteId, c.id) ==> JoinLine(v, c) in SalesQuery(cs, vs)
    ensures forall l :: l in SalesQuery(cs, vs) ==>
      exists v, c :: v in vs && c in cs && Matches(v.clienteId, c.id) && l == JoinLine(v, c)
  {
    if vs != [] {
      SalesQueryJoins(cs, vs[1..]);
      assert forall v :: v in vs ==> v == vs[0] || v in vs[1..];
      assert forall v :: v in vs[1..] ==> v in vs;
    }
  }

  lemma {:induction false} SumLinesAppend(a: seq<SaleLine>, b: seq<SaleLine>)
    ensures SumLines(a + b) == SumLines(a) + SumLines(b)
    decreases |b|
  {
    if b == [] {
      assert a + b == a;
    } else {
      assert (a + b)[..|a + b| - 1] == a + b[..|b| - 1];
      SumLinesAppend(a, b[..|b| - 1]);
    }
  }

  /// With client ids unique, a sale pairs with exactly one client when its
  /// client exists, and with none otherwise.
  lemma {:induction false} ClientsOfCount(cs: seq<Cliente>, cid: SqlValue)
    requires IdsAscending(cs, ClienteId)
    ensures (exists c :: c in cs && Matches(cid, c.id)) ==> |ClientsOf(cs, cid)| == 1
    ensures (forall c :: c in cs ==> !Matches(cid, c.id)) ==> ClientsOf(cs, cid) == []
  {
    if cs != [] {
      ClientsOfCount(cs[1..], cid);
      if Matches(cid, cs[0].id) {
        forall c | c in cs[1..]
          ensures !Matches(cid, c.id)
        {
          var m :| 0 <= m < |cs[1..]| && cs[1..][m] == c;
          assert cs[m + 1] == c;
        }
      } else {
        assert forall c :: c in cs ==> c == cs[0] || c in cs[1..];
      }
    }
  }

  /// A sale whose client no longer exists, because it was deleted or never
  /// was, is missing from both sales reports.
  lemma OrphanSaleDropped(cs: seq<Cliente>, v: Venta)
    requires IdsAscending(cs, ClienteId)
    requires forall c :: c in cs ==> !Matches(v.clienteId, c.id)
    ensures SalesQuery(cs, [v]) == []
  {
    ClientsOfCount(cs, v.clienteId);
  }

  /// A sale joined with exactly one client counts its total once.
  lemma OneClientTotal(v: Venta, pair: seq<Cliente>)
    requires |pair| == 1
    ensures SumLines(LinesOf(v, pair)) == v.total
  {
    var one := LinesOf(v, pair);
    assert one[..0] == [];
  }

  /// A sale whose client exists adds its total to the query's running sum
  /// once.
  lemma FirstSaleTotal(cs: seq<Cliente>, v: Venta, rest: seq<Venta>)
    requires IdsAscending(cs, ClienteId)
    requires exists c :: c in cs && Matches(v.clienteId, c.id)
    ensures SumLines(SalesQuery(cs, [v] + rest)) == v.total + SumLines(SalesQuery(cs, rest))
  {
    var all := [v] + rest;
    assert all[0] == v && all[1..] == rest;
    ClientsOfCount(cs, v.clienteId);
    OneClientTotal(v, ClientsOf(cs, v.clienteId));
    SumLinesAppend(LinesOf(v, ClientsOf(cs, v.clienteId)), SalesQuery(cs, rest));
  }

  /// When every sale's client exists, the TOTAL of the sales reports equals
  /// the dashboard's total sold.
  lemma {:induction false} ReportTotalIsDashboardTotal(cs: seq<Cliente>, ps: seq<Producto>, vs: seq<Venta>)
    requires IdsAscending(cs, ClienteId)
    requires forall v :: v in vs ==> exists c :: c in cs && Matches(v.clienteId, c.id)
    ensures SumLines(SalesQuery(cs, vs)) == Dashboard(cs, ps, vs).totalVendido
  {
    if vs != [] {
      assert vs[0] in vs;
      FirstSaleTotal(cs, vs[0], vs[1..]);
      assert [vs[0]] + vs[1..] == vs;
      assert forall w :: w in vs[1..] ==> w in vs;
      ReportTotalIsDashboardTotal(cs, ps, vs[1..]);
    }
  }
}
