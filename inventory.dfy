/// The data operations of the Flask application over its four SQLite tables
/// (clientes, productos, ventas, detalle_ventas), held in memory. Each table
/// is a sequence of rows in id order, and each AUTOINCREMENT counter is the
/// largest id the table has handed out (SQLite keeps it in sqlite_sequence).
module Inventory {
  import opened Wrappers
  import opened Text

  /// A key of a JSON request body: absent, present with `null`, or present
  /// with a value.
  datatype Field<+T> = Missing | Null | Given(value: T)

  /// A value bound to an INTEGER column: JSON numbers arrive as integers,
  /// the browser sends ids as text.
  datatype SqlValue = Int(i: int) | Txt(s: string)

  datatype Cliente = Cliente(
    id: int, nombre: string, cedula: string, celular: string, email: string,
    direccion: string, fechaRegistro: string)

  /// `descripcion` and `proveedor` are nullable columns: `None` is SQL NULL.
  datatype Producto = Producto(
    id: int, nombre: string, descripcion: Option<string>, precio: int, stock: int,
    proveedor: Option<string>, fechaRegistro: string)

  datatype Venta = Venta(
    id: int, numeroFactura: string, clienteId: SqlValue, total: int, fecha: string, hora: string)

  datatype Detalle = Detalle(
    id: int, ventaId: int, productoId: SqlValue, cantidad: int, precio: int, subtotal: int)

  datatype ClientePayload = ClientePayload(
    nombre: Field<string>, cedula: Field<string>, celular: Field<string>,
    email: Field<string>, direccion: Field<string>)

  datatype ProductoPayload = ProductoPayload(
    nombre: Field<string>, descripcion: Field<string>, precio: Field<int>,
    stock: Field<int>, proveedor: Field<string>)

  datatype ItemPayload = ItemPayload(
    productoId: Field<SqlValue>, cantidad: Field<int>, precio: Field<int>, subtotal: Field<int>)

  datatype VentaPayload = VentaPayload(
    numeroFactura: Field<string>, clienteId: Field<SqlValue>, total: Field<int>,
    items: Field<seq<ItemPayload>>)

  /// The JSON envelope every handler answers with.
  datatype Response = Response(success: bool, message: string)

  /// The fields of one sale item once every key is present and not null.
  datatype Item = Item(productoId: SqlValue, cantidad: int, precio: int, subtotal: int)

  /// The fields of a sale header once every key is present and not null.
  datatype Header = Header(numeroFactura: string, clienteId: SqlValue, total: int)

  /// The four figures of the dashboard.
  datatype Stats = Stats(totalClientes: nat, totalProductos: nat, totalVentas: nat, totalVendido: int)

  // ---------------------------------------------------------------- messages

  /// Python's `str(KeyError(key))`.
  function KeyError(key: string): string { "'" + key + "'" }

  /// SQLite's message for a NULL bound to a NOT NULL column.
  function NotNull(column: string): string { "NOT NULL constraint failed: " + column }

  const CedulaRegistrada := "La cédula ya está registrada"
  const FacturaRepetida := "UNIQUE constraint failed: ventas.numero_factura"
  const ItemsNotIterable := "'NoneType' object is not iterable"

  // ------------------------------------------------------------ row helpers

  function ClienteId(c: Cliente): int { c.id }
  function ProductoId(p: Producto): int { p.id }
  function VentaId(v: Venta): int { v.id }
  function DetalleId(d: Detalle): int { d.id }

  /// The ids of the rows increase along the table.
  ghost predicate IdsAscending<T>(s: seq<T>, key: T -> int)
  {
    forall i, j :: 0 <= i < j < |s| ==> key(s[i]) < key(s[j])
  }

  /// No row has an id above the AUTOINCREMENT counter.
  ghost predicate IdsAtMost<T>(s: seq<T>, key: T -> int, last: int)
  {
    forall x :: x in s ==> key(x) <= last
  }

  /// A table in good order: ids increasing along it, none above its counter.
  ghost predicate TableOk<T>(s: seq<T>, key: T -> int, last: int)
  {
    IdsAscending(s, key) && IdsAtMost(s, key, last)
  }

  /// The UNIQUE constraint on clientes.cedula.
  ghost predicate CedulasDistinct(cs: seq<Cliente>)
  {
    forall a, b :: a in cs && b in cs && a.cedula == b.cedula ==> a == b
  }

  /// The UNIQUE constraint on ventas.numero_factura.
  ghost predicate FacturasDistinct(vs: seq<Venta>)
  {
    forall a, b :: a in vs && b in vs && a.numeroFactura == b.numeroFactura ==> a == b
  }

  predicate CedulaTaken(cs: seq<Cliente>, cedula: string)
  {
    exists c :: c in cs && c.cedula == cedula
  }

  predicate FacturaTaken(vs: seq<Venta>, numero: string)
  {
    exists v :: v in vs && v.numeroFactura == numero
  }

  /// SQLite's INTEGER affinity: text spelling an integer literal is read as
  /// that integer; any other text stays text. The stored value converts no
  /// further, so comparing two stored values (a JOIN) needs no conversion,
  /// and text it turns into a number is read as that number by `parseInt`.
  function IntegerAffinity(v: SqlValue): (r: SqlValue)
    ensures r == v || (v.Txt? && r.Int?)
    ensures r.Int? || StrictInt(r.s).None?
    ensures v.Txt? && r.Int? ==> ParseInt(v.s) == Some(r.i)
    ensures v.Txt? && StrictInt(v.s).None? ==> r == v
  {
    match v
    case Int(_) => v
    case Txt(s) => if StrictInt(s).Some? then Int(StrictInt(s).value) else v
  }

  /// Whether `WHERE id = ?` with `v` bound selects the row with id `id`: a
  /// number equal to it, or text SQLite reads as that number.
  predicate Matches(v: SqlValue, id: int)
    ensures Matches(v, id) <==> (v.Int? && v.i == id) || (v.Txt? && StrictInt(v.s) == Some(id))
  {
    IntegerAffinity(v) == Int(id)
  }

  /// An id sent as the text of its own decimal spelling selects that row.
  lemma TextIdMatches(id: int)
    ensures Matches(Txt(IntText(id)), id)
  {
    StrictIntOfIntText(id);
  }

  /// `data.get(key, '')` bound to a nullable TEXT column.
  function TextOrEmpty(f: Field<string>): Option<string>
  {
    match f
    case Missing => Some("")
    case Null => None
    case Given(s) => Some(s)
  }

  // ------------------------------------------------------------- clientes

  /// The row `agregar_cliente` inserts with id `id`, or the message it
  /// answers with: a missing key is a KeyError, and every IntegrityError,
  /// a NULL in a NOT NULL column as much as a repeated cédula, is reported
  /// as a repeated cédula.
  function NewCliente(cs: seq<Cliente>, data: ClientePayload, id: int, now: string): (r: Result<Cliente>)
    ensures r.Ok? ==> !CedulaTaken(cs, r.value.cedula)
    ensures r.Ok? <==>
      && data.nombre.Given? && data.cedula.Given? && data.celular.Given?
      && data.email.Given? && data.direccion.Given?
      && !CedulaTaken(cs, data.cedula.value)
    ensures r.Err? && !(data.nombre.Missing? || data.cedula.Missing? || data.celular.Missing?
                        || data.email.Missing? || data.direccion.Missing?) ==>
      r.error == CedulaRegistrada
    ensures r.Ok? ==> r.value == Cliente(id, data.nombre.value, data.cedula.value, data.celular.value,
                                         data.email.value, data.direccion.value, now)
  {
    if data.nombre.Missing? then Err(KeyError("nombre"))
    else if data.cedula.Missing? then Err(KeyError("cedula"))
    else if data.celular.Missing? then Err(KeyError("celular"))
    else if data.email.Missing? then Err(KeyError("email"))
    else if data.direccion.Missing? then Err(KeyError("direccion"))
    else if data.nombre.Null? || data.cedula.Null? || data.celular.Null?
         || data.email.Null? || data.direccion.Null? then Err(CedulaRegistrada)
    else if CedulaTaken(cs, data.cedula.value) then Err(CedulaRegistrada)
    else Ok(Cliente(id, data.nombre.value, data.cedula.value, data.celular.value,
                    data.email.value, data.direccion.value, now))
  }

  // ------------------------------------------------------------ productos

  /// The row `agregar_producto` inserts with id `id`, or the message it
  /// answers with. `descripcion` and `proveedor` are read with
  /// `data.get(key, '')`, so only `nombre`, `precio` and `stock` can be
  /// missing.
  function NewProducto(data: ProductoPayload, id: int, now: string): (r: Result<Producto>)
    ensures r.Ok? <==> data.nombre.Given? && data.precio.Given? && data.stock.Given?
    ensures r.Ok? ==>
      && r.value.id == id && r.value.nombre == data.nombre.value
      && r.value.precio == data.precio.value && r.value.stock == data.stock.value
      && r.value.fechaRegistro == now
    ensures r.Ok? && data.descripcion.Missing? ==> r.value.descripcion == Some("")
    ensures r.Ok? && data.descripcion.Null? ==> r.value.descripcion == None
    ensures r.Ok? && data.descripcion.Given? ==> r.value.descripcion == Some(data.descripcion.value)
    ensures r.Ok? && data.proveedor.Missing? ==> r.value.proveedor == Some("")
    ensures r.Ok? && data.proveedor.Null? ==> r.value.proveedor == None
    ensures r.Ok? && data.proveedor.Given? ==> r.value.proveedor == Some(data.proveedor.value)
  {
    if data.nombre.Missing? then Err(KeyError("nombre"))
    else if data.precio.Missing? then Err(KeyError("precio"))
    else if data.stock.Missing? then Err(KeyError("stock"))
    else if data.nombre.Null? then Err(NotNull("productos.nombre"))
    else if data.precio.Null? then Err(NotNull("productos.precio"))
    else if data.stock.Null? then Err(NotNull("productos.stock"))
    else Ok(Producto(id, data.nombre.value, TextOrEmpty(data.descripcion), data.precio.value,
                     data.stock.value, TextOrEmpty(data.proveedor), now))
  }

  // --------------------------------------------------------------- deletes

  /// `DELETE FROM t WHERE id = ?`: the rows whose id is not `id`, in order.
  function Without<T(!new)>(s: seq<T>, key: T -> int, id: int): (r: seq<T>)
    ensures |r| <= |s|
    ensures forall x :: x in r <==> x in s && key(x) != id
  {
    if s == [] then []
    else (if key(s[0]) == id then [] else [s[0]]) + Without(s[1..], key, id)
  }

  /// Deleting keeps the rows in id order.
  lemma {:induction false} WithoutAscending<T(!new)>(s: seq<T>, key: T -> int, id: int)
    requires IdsAscending(s, key)
    ensures IdsAscending(Without(s, key, id), key)
  {
    if s != [] {
      var rest := Without(s[1..], key, id);
      WithoutAscending(s[1..], key, id);
      if key(s[0]) != id {
        forall j | 0 <= j < |rest|
          ensures key(s[0]) < key(rest[j])
        {
          assert rest[j] in s[1..];
          var m :| 0 <= m < |s[1..]| && s[1..][m] == rest[j];
          assert s[m + 1] == rest[j];
        }
        assert Without(s, key, id) == [s[0]] + rest;
      }
    }
  }

  /// A delete whose id no row has leaves the table as it was.
  lemma {:induction false} WithoutAbsent<T(!new)>(s: seq<T>, key: T -> int, id: int)
    requires forall x :: x in s ==> key(x) != id
    ensures Without(s, key, id) == s
  {
    if s != [] {
      assert s[0] in s;
      assert forall x :: x in s[1..] ==> x in s;
      WithoutAbsent(s[1..], key, id);
      assert s == [s[0]] + s[1..];
    }
  }

  /// With ids unique, a delete whose id a row has removes exactly one row.
  lemma {:induction false} WithoutPresent<T(!new)>(s: seq<T>, key: T -> int, id: int, k: nat)
    requires IdsAscending(s, key) && k < |s| && key(s[k]) == id
    ensures |Without(s, key, id)| == |s| - 1
  {
    var t := s[1..];
    if k == 0 {
      forall x | x in t
        ensures key(x) != id
      {
        var m :| 0 <= m < |t| && t[m] == x;
        assert s[m + 1] == x;
      }
      WithoutAbsent(t, key, id);
    } else {
      assert key(s[0]) < key(s[k]);
      assert forall i, j :: 0 <= i < j < |t| ==> t[i] == s[i + 1] && t[j] == s[j + 1];
      assert t[k - 1] == s[k];
      WithoutPresent(t, key, id, k - 1);
    }
  }

  /// With ids unique, a delete removes one row when the id is present and
  /// none otherwise.
  lemma WithoutCount<T(!new)>(s: seq<T>, key: T -> int, id: int)
    requires IdsAscending(s, key)
    ensures (exists x :: x in s && key(x) == id) ==> |Without(s, key, id)| == |s| - 1
    ensures (forall x :: x in s ==> key(x) != id) ==> Without(s, key, id) == s
  {
    if x :| x in s && key(x) == id {
      var k :| 0 <= k < |s| && s[k] == x;
      WithoutPresent(s, key, id, k);
    } else {
      WithoutAbsent(s, key, id);
    }
  }

  // ----------------------------------------------------------------- sales

  /// The header of `registrar_venta`'s INSERT INTO ventas, or the message of
  /// what stops it: a missing key, then a NULL column, then a repeated
  /// invoice number.
  function CheckHeader(vs: seq<Venta>, data: VentaPayload): (r: Result<Header>)
    ensures r.Ok? ==> !FacturaTaken(vs, r.value.numeroFactura)
    ensures r.Ok? <==>
      data.numeroFactura.Given? && data.clienteId.Given? && data.total.Given?
      && !FacturaTaken(vs, data.numeroFactura.value)
    ensures r.Ok? ==> r.value == Header(data.numeroFactura.value, data.clienteId.value, data.total.value)
  {
    if data.numeroFactura.Missing? then Err(KeyError("numero_factura"))
    else if data.clienteId.Missing? then Err(KeyError("cliente_id"))
    else if data.total.Missing? then Err(KeyError("total"))
    else if data.numeroFactura.Null? then Err(NotNull("ventas.numero_factura"))
    else if data.clienteId.Null? then Err(NotNull("ventas.cliente_id"))
    else if data.total.Null? then Err(NotNull("ventas.total"))
    else if FacturaTaken(vs, data.numeroFactura.value) then Err(FacturaRepetida)
    else Ok(Header(data.numeroFactura.value, data.clienteId.value, data.total.value))
  }

  /// One pass of the item loop: the fields of the INSERT INTO detalle_ventas,
  /// or the KeyError or NOT NULL failure that stops it.
  function CheckItem(it: ItemPayload): (r: Result<Item>)
    ensures r.Ok? <==>
      it.productoId.Given? && it.cantidad.Given? && it.precio.Given? && it.subtotal.Given?
    ensures r.Ok? ==>
      r.value == Item(it.productoId.value, it.cantidad.value, it.precio.value, it.subtotal.value)
  {
    if it.productoId.Missing? then Err(KeyError("producto_id"))
    else if it.cantidad.Missing? then Err(KeyError("cantidad"))
    else if it.precio.Missing? then Err(KeyError("precio"))
    else if it.subtotal.Missing? then Err(KeyError("subtotal"))
    else if it.productoId.Null? then Err(NotNull("detalle_ventas.producto_id"))
    else if it.cantidad.Null? then Err(NotNull("detalle_ventas.cantidad"))
    else if it.precio.Null? then Err(NotNull("detalle_ventas.precio"))
    else if it.subtotal.Null? then Err(NotNull("detalle_ventas.subtotal"))
    else Ok(Item(it.productoId.value, it.cantidad.value, it.precio.value, it.subtotal.value))
  }

  /// The items in order once all of them pass, or the message of the first
  /// one that does not.
  function CheckItems(items: seq<ItemPayload>): (r: Result<seq<Item>>)
    ensures r.Ok? ==>
      |r.value| == |items| && forall k :: 0 <= k < |items| ==> CheckItem(items[k]) == Ok(r.value[k])
    ensures r.Ok? <==> forall k :: 0 <= k < |items| ==> CheckItem(items[k]).Ok?
  {
    if items == [] then Ok([])
    else
      var prefix := items[..|items| - 1];
      assert forall k :: 0 <= k < |prefix| ==> prefix[k] == items[k];
      match CheckItems(prefix)
      case Err(e) => Err(e)
      case Ok(vs) =>
        match CheckItem(items[|items| - 1])
        case Err(e) => Err(e)
        case Ok(v) => Ok(vs + [v])
  }

  /// When the items before `i` pass and item `i` fails, the whole list fails
  /// with item `i`'s message.
  lemma {:induction false} CheckItemsFirstError(items: seq<ItemPayload>, i: nat)
    requires i < |items|
    requires CheckItems(items[..i]).Ok? && CheckItem(items[i]).Err?
    ensures CheckItems(items) == Err(CheckItem(items[i]).error)
    decreases |items|
  {
    if i == |items| - 1 {
      assert items[..|items| - 1] == items[..i];
    } else {
      var prefix := items[..|items| - 1];
      assert prefix[..i] == items[..i] && prefix[i] == items[i];
      CheckItemsFirstError(prefix, i);
    }
  }

  /// The whole of `registrar_venta`'s validation, in the order the handler
  /// meets its failures.
  function CheckSale(vs: seq<Venta>, data: VentaPayload): (r: Result<(Header, seq<Item>)>)
    ensures r.Ok? ==> CheckHeader(vs, data) == Ok(r.value.0)
    ensures r.Ok? ==> data.items.Given? && CheckItems(data.items.value) == Ok(r.value.1)
    ensures r.Ok? <==> CheckHeader(vs, data).Ok? && data.items.Given? && CheckItems(data.items.value).Ok?
  {
    match CheckHeader(vs, data)
    case Err(e) => Err(e)
    case Ok(h) =>
      match data.items
      case Missing => Err(KeyError("items"))
      case Null => Err(ItemsNotIterable)
      case Given(items) =>
        match CheckItems(items)
        case Err(e) => Err(e)
        case Ok(its) => Ok((h, its))
  }

  /// The detalle_ventas rows of a sale with id `ventaId`, one per item in
  /// item order, taking ids from `firstId` on.
  function DetailRows(ventaId: int, firstId: int, its: seq<Item>): (r: seq<Detalle>)
    ensures |r| == |its|
    ensures forall k :: 0 <= k < |its| ==>
      r[k] == Detalle(firstId + k, ventaId, IntegerAffinity(its[k].productoId),
                      its[k].cantidad, its[k].precio, its[k].subtotal)
  {
    if its == [] then []
    else
      var last := its[|its| - 1];
      DetailRows(ventaId, firstId, its[..|its| - 1])
      + [Detalle(firstId + |its| - 1, ventaId, IntegerAffinity(last.productoId),
                 last.cantidad, last.precio, last.subtotal)]
  }

  /// `UPDATE productos SET stock = stock - q WHERE id = pid`.
  /// Only the stock column changes, only in the rows the id matches, and
  /// each of those loses `q`.
  function Decrement(ps: seq<Producto>, pid: SqlValue, q: int): (r: seq<Producto>)
    ensures |r| == |ps|
    ensures forall k :: 0 <= k < |ps| ==> r[k].(stock := ps[k].stock) == ps[k]
    ensures forall k :: 0 <= k < |ps| ==>
      r[k].stock == (if Matches(pid, ps[k].id) then ps[k].stock - q else ps[k].stock)
  {
    seq(|ps|, k requires 0 <= k < |ps| =>
      if Matches(pid, ps[k].id) then ps[k].(stock := ps[k].stock - q) else ps[k])
  }

  /// The total quantity the items take from the product with id `id`.
  function QtyFor(its: seq<Item>, id: int): int
  {
    if its == [] then 0
    else
      var last := its[|its| - 1];
      QtyFor(its[..|its| - 1], id) + (if Matches(last.productoId, id) then last.cantidad else 0)
  }

  /// A product no item names loses no stock.
  lemma {:induction false} QtyForUnnamed(its: seq<Item>, id: int)
    requires forall k :: 0 <= k < |its| ==> !Matches(its[k].productoId, id)
    ensures QtyFor(its, id) == 0
  {
    if its != [] {
      QtyForUnnamed(its[..|its| - 1], id);
    }
  }

  /// Quantities over a list split in two add up.
  lemma {:induction false} QtyForAppend(a: seq<Item>, b: seq<Item>, id: int)
    ensures QtyFor(a + b, id) == QtyFor(a, id) + QtyFor(b, id)
    decreases |b|
  {
    if b == [] {
      assert a + b == a;
    } else {
      assert (a + b)[..|a + b| - 1] == a + b[..|b| - 1];
      assert (a + b)[|a + b| - 1] == b[|b| - 1];
      QtyForAppend(a, b[..|b| - 1], id);
    }
  }

  /// Stock has no lower bound. `CheckSale` never looks at productos, so a
  /// sale whose items take more of a product than it holds is accepted, and
  /// the stock it leaves behind is negative.
  lemma StockCanGoNegative(vs: seq<Venta>, data: VentaPayload, ps0: seq<Producto>, ps: seq<Producto>, k: nat)
    requires CheckSale(vs, data).Ok? && StockTaken(ps0, ps, CheckSale(vs, data).value.1)
    requires k < |ps0| && ps0[k].stock < QtyFor(CheckSale(vs, data).value.1, ps0[k].id)
    ensures ps[k].id == ps0[k].id && ps[k].stock < 0
  {
    var its := CheckSale(vs, data).value.1;
    assert ps[k] == ps0[k].(stock := ps0[k].stock - QtyFor(its, ps0[k].id));
  }

  /// If every sale so far got the number the invoice counter gave it, the
  /// next number is not taken, so the UNIQUE constraint does not fire.
  lemma SequentialInvoicesAreFresh(vs: seq<Venta>)
    requires forall i :: 0 <= i < |vs| ==> vs[i].numeroFactura == InvoiceNumber(i)
    ensures !FacturaTaken(vs, InvoiceNumber(|vs|))
  {
    forall v | v in vs
      ensures v.numeroFactura != InvoiceNumber(|vs|)
    {
      var i :| 0 <= i < |vs| && vs[i] == v;
      InvoiceNumbersDiffer(i, |vs|);
    }
  }

  // ------------------------------------------------------------ dashboard

  /// `SELECT SUM(total) FROM ventas`, with `or 0` for an empty table.
  function SumTotals(vs: seq<Venta>): int
  {
    if vs == [] then 0 else vs[0].total + SumTotals(vs[1..])
  }

  /// The figures the dashboard shows.
  function Dashboard(cs: seq<Cliente>, ps: seq<Producto>, vs: seq<Venta>): (s: Stats)
    ensures s.totalClientes == |cs| && s.totalProductos == |ps| && s.totalVentas == |vs|
    ensures vs == [] ==> s.totalVendido == 0
  {
    Stats(|cs|, |ps|, |vs|, SumTotals(vs))
  }

  /// A recorded sale adds one to the sale count and its total to the sum.
  lemma {:induction false} DashboardAfterSale(cs: seq<Cliente>, ps: seq<Producto>, vs: seq<Venta>, v: Venta)
    ensures Dashboard(cs, ps, vs + [v])
         == Dashboard(cs, ps, vs).(totalVentas := |vs| + 1,
                                   totalVendido := SumTotals(vs) + v.total)
  {
    SumTotalsAppend(vs, v);
  }

  lemma {:induction false} SumTotalsAppend(vs: seq<Venta>, v: Venta)
    ensures SumTotals(vs + [v]) == SumTotals(vs) + v.total
  {
    if vs != [] {
      assert (vs + [v])[1..] == vs[1..] + [v];
      SumTotalsAppend(vs[1..], v);
    }
  }

  // ------------------------------------------------------------- database

  /// The SQLite file as the handlers see it, one connection at a time.
  class Database {
    var clientes: seq<Cliente>
    var productos: seq<Producto>
    var ventas: seq<Venta>
    var detalles: seq<Detalle>
    var lastCliente: int
    var lastProducto: int
    var lastVenta: int
    var lastDetalle: int

    ghost predicate Valid()
      reads this
    {
      && TableOk(clientes, ClienteId, lastCliente) && CedulasDistinct(clientes)
      && TableOk(productos, ProductoId, lastProducto)
      && TableOk(ventas, VentaId, lastVenta) && FacturasDistinct(ventas)
      && TableOk(detalles, DetalleId, lastDetalle)
    }

    /// `init_db`: the four empty tables.
    constructor ()
      ensures Valid()
      ensures clientes == [] && productos == [] && ventas == [] && detalles == []
      ensures lastCliente == 0 && lastProducto == 0 && lastVenta == 0 && lastDetalle == 0
    {
      clientes, productos, ventas, detalles := [], [], [], [];
      lastCliente, lastProducto, lastVenta, lastDetalle := 0, 0, 0, 0;
    }

    /// `agregar_cliente`.
    method AgregarCliente(data: ClientePayload, now: string) returns (r: Response)
      requires Valid()
      modifies this
      ensures Valid()
      ensures var row := NewCliente(old(clientes), data, old(lastCliente) + 1, now);
        && r.success == row.Ok?
        && (row.Ok? ==>
              && r.message == "Cliente registrado correctamente"
              && clientes == old(clientes) + [row.value]
              && lastCliente == old(lastCliente) + 1)
        && (row.Err? ==> r.message == row.error && clientes == old(clientes) && lastCliente == old(lastCliente))
      ensures productos == old(productos) && ventas == old(ventas) && detalles == old(detalles)
      ensures lastProducto == old(lastProducto) && lastVenta == old(lastVenta) && lastDetalle == old(lastDetalle)
    {
      var row := NewCliente(clientes, data, lastCliente + 1, now);
      if row.Err? {
        return Response(false, row.error);
      }
      var c := row.value;
      AppendKeepsTable(clientes, ClienteId, lastCliente, c);
      AppendKeepsCedulas(clientes, c);
      clientes := clientes + [c];
      lastCliente := lastCliente + 1;
      r := Response(true, "Cliente registrado correctamente");
    }

    /// `eliminar_cliente`: succeeds whether or not a row had that id.
    method EliminarCliente(id: int) returns (r: Response)
      requires Valid()
      modifies this
      ensures Valid()
      ensures r == Response(true, "Cliente eliminado")
      ensures clientes == Without(old(clientes), ClienteId, id)
      ensures productos == old(productos) && ventas == old(ventas) && detalles == old(detalles)
      ensures lastCliente == old(lastCliente) && lastProducto == old(lastProducto)
      ensures lastVenta == old(lastVenta) && lastDetalle == old(lastDetalle)
    {
      WithoutKeepsTable(clientes, ClienteId, lastCliente, id);
      clientes := Without(clientes, ClienteId, id);
      r := Response(true, "Cliente eliminado");
    }

    /// `agregar_producto`.
    method AgregarProducto(data: ProductoPayload, now: string) returns (r: Response)
      requires Valid()
      modifies this
      ensures Valid()
      ensures var row := NewProducto(data, old(lastProducto) + 1, now);
        && r.success == row.Ok?
        && (row.Ok? ==>
              && r.message == "Producto registrado correctamente"
              && productos == old(productos) + [row.value]
              && lastProducto == old(lastProducto) + 1)
        && (row.Err? ==> r.message == row.error && productos == old(productos) && lastProducto == old(lastProducto))
      ensures clientes == old(clientes) && ventas == old(ventas) && detalles == old(detalles)
      ensures lastCliente == old(lastCliente) && lastVenta == old(lastVenta) && lastDetalle == old(lastDetalle)
    {
      var row := NewProducto(data, lastProducto + 1, now);
      if row.Err? {
        return Response(false, row.error);
      }
      AppendKeepsTable(productos, ProductoId, lastProducto, row.value);
      productos := productos + [row.value];
      lastProducto := lastProducto + 1;
      r := Response(true, "Producto registrado correctamente");
    }

    /// `eliminar_producto`: succeeds whether or not a row had that id.
    method EliminarProducto(id: int) returns (r: Response)
      requires Valid()
      modifies this
      ensures Valid()
      ensures r == Response(true, "Producto eliminado")
      ensures productos == Without(old(productos), ProductoId, id)
      ensures clientes == old(clientes) && ventas == old(ventas) && detalles == old(detalles)
      ensures lastCliente == old(lastCliente) && lastProducto == old(lastProducto)
      ensures lastVenta == old(lastVenta) && lastDetalle == old(lastDetalle)
    {
      WithoutKeepsTable(productos, ProductoId, lastProducto, id);
      productos := Without(productos, ProductoId, id);
      r := Response(true, "Producto eliminado");
    }

    /// `registrar_venta`. The statements run inside one implicit transaction
    /// on local copies; only when every statement succeeded does the commit
    /// publish them. On any failure the transaction is never committed, so
    /// every table and counter is as before.
    method RegistrarVenta(data: VentaPayload, fecha: string, hora: string) returns (r: Response)
      requires Valid()
      modifies this
      ensures Valid()
      ensures r.success <==> CheckSale(old(ventas), data).Ok?
      ensures !r.success ==> r.message == CheckSale(old(ventas), data).error && unchanged(this)
      ensures r.success ==>
        var h, its := CheckSale(old(ventas), data).value.0, CheckSale(old(ventas), data).value.1;
        var id := old(lastVenta) + 1;
        && r.message == "Venta registrada correctamente"
        && ventas == old(ventas) + [Venta(id, h.numeroFactura, IntegerAffinity(h.clienteId), h.total, fecha, hora)]
        && detalles == old(detalles) + DetailRows(id, old(lastDetalle) + 1, its)
        && StockTaken(old(productos), productos, its)
        && clientes == old(clientes)
        && lastVenta == id && lastDetalle == old(lastDetalle) + |its|
        && lastCliente == old(lastCliente) && lastProducto == old(lastProducto)
    {
      var header := CheckHeader(ventas, data);
      if header.Err? {
        assert CheckSale(ventas, data) == Err(header.error);
        return Response(false, header.error);
      }
      var h := header.value;
      var ventaId := lastVenta + 1;
      var venta := Venta(ventaId, h.numeroFactura, IntegerAffinity(h.clienteId), h.total, fecha, hora);
      if data.items.Missing? {
        assert CheckSale(ventas, data) == Err(KeyError("items"));
        return Response(false, KeyError("items"));
      }
      if data.items.Null? {
        assert CheckSale(ventas, data) == Err(ItemsNotIterable);
        return Response(false, ItemsNotIterable);
      }
      var applied := ApplyItems(data.items.value, ventaId, lastDetalle, detalles, productos);
      if applied.Err? {
        assert CheckSale(ventas, data) == Err(applied.error);
        return Response(false, applied.error);
      }
      ghost var its := CheckItems(data.items.value).value;
      assert CheckSale(ventas, data) == Ok((h, its));
      Commit(venta, applied.value.0, applied.value.1, its);
      r := Response(true, "Venta registrada correctamente");
    }

    /// `conn.commit()` of a sale: publish the sale row, the detail rows and
    /// the new stock the transaction built.
    method Commit(v: Venta, newDetalles: seq<Detalle>, newProductos: seq<Producto>, ghost its: seq<Item>)
      requires Valid()
      requires v.id == lastVenta + 1 && !FacturaTaken(ventas, v.numeroFactura)
      requires newDetalles == detalles + DetailRows(v.id, lastDetalle + 1, its)
      requires StockTaken(productos, newProductos, its)
      modifies this
      ensures Valid()
      ensures ventas == old(ventas) + [v] && detalles == newDetalles && productos == newProductos
      ensures clientes == old(clientes) && lastVenta == v.id && lastDetalle == old(lastDetalle) + |its|
      ensures lastCliente == old(lastCliente) && lastProducto == old(lastProducto)
    {
      DetailRowsAfter(detalles, lastDetalle, v.id, its);
      var added := |newDetalles| - |detalles|;
      assert added == |its|;
      StockOnlyKeepsIds(productos, newProductos, its, lastProducto);
      NewVentaKeepsInvariant(ventas, lastVenta, v);
      ventas, detalles, productos := ventas + [v], newDetalles, newProductos;
      lastVenta, lastDetalle := v.id, lastDetalle + added;
    }
  }

  /// The loop of `registrar_venta` over `data['items']`: for each item in
  /// order, insert its detalle_ventas row and take its quantity from the
  /// stock of the product it names. Gives the new detalle_ventas and
  /// productos tables, or the message of the first item that fails.
  method ApplyItems(items: seq<ItemPayload>, ventaId: int, lastDetalle: int,
                    detalles: seq<Detalle>, productos: seq<Producto>)
    returns (r: Result<(seq<Detalle>, seq<Producto>)>)
    ensures r.Ok? <==> CheckItems(items).Ok?
    ensures r.Err? ==> r.error == CheckItems(items).error
    ensures r.Ok? ==>
      var its := CheckItems(items).value;
      && r.value.0 == detalles + DetailRows(ventaId, lastDetalle + 1, its)
      && StockTaken(productos, r.value.1, its)
  {
    var newDetalles := detalles;
    var newProductos := productos;
    ghost var its: seq<Item> := [];
    var i := 0;
    while i < |items|
      invariant 0 <= i <= |items| && |its| == i
      invariant Applied(items[..i], its, ventaId, lastDetalle, detalles, productos, newDetalles, newProductos)
    {
      var checked := CheckItem(items[i]);
      if checked.Err? {
        CheckItemsFirstError(items, i);
        return Err(checked.error);
      }
      var it := checked.value;
      ApplyStep(items, i, its, it, ventaId, lastDetalle, detalles, productos, newDetalles, newProductos);
      newDetalles := newDetalles + [Detalle(lastDetalle + 1 + i, ventaId, IntegerAffinity(it.productoId),
                                            it.cantidad, it.precio, it.subtotal)];
      newProductos := Decrement(newProductos, it.productoId, it.cantidad);
      its := its + [it];
      i := i + 1;
    }
    assert items[..|items|] == items;
    r := Ok((newDetalles, newProductos));
  }

  /// The state of the item loop once the items `done` have been applied:
  /// they passed as `its`, their detalle_ventas rows follow the old ones and
  /// their quantities are taken from the stock.
  ghost predicate Applied(done: seq<ItemPayload>, its: seq<Item>, ventaId: int, lastDetalle: int,
                          detalles: seq<Detalle>, productos: seq<Producto>,
                          newDetalles: seq<Detalle>, newProductos: seq<Producto>)
  {
    && CheckItems(done) == Ok(its)
    && newDetalles == detalles + DetailRows(ventaId, lastDetalle + 1, its)
    && StockTaken(productos, newProductos, its)
  }

  /// One pass of the item loop keeps `Applied`.
  lemma ApplyStep(items: seq<ItemPayload>, i: nat, its: seq<Item>, it: Item, ventaId: int, lastDetalle: int,
                  detalles: seq<Detalle>, productos: seq<Producto>,
                  newDetalles: seq<Detalle>, newProductos: seq<Producto>)
    requires i < |items| && |its| == i && CheckItem(items[i]) == Ok(it)
    requires Applied(items[..i], its, ventaId, lastDetalle, detalles, productos, newDetalles, newProductos)
    ensures Applied(items[..i + 1], its + [it], ventaId, lastDetalle, detalles, productos,
                    newDetalles + [Detalle(lastDetalle + 1 + i, ventaId, IntegerAffinity(it.productoId),
                                           it.cantidad, it.precio, it.subtotal)],
                    Decrement(newProductos, it.productoId, it.cantidad))
  {
    CheckItemsStep(items, i, its);
    DetailRowsStep(ventaId, lastDetalle + 1, its, it);
    DecrementStep(productos, newProductos, its, it);
  }

  /// One more item that passes extends the checked prefix by that item.
  lemma CheckItemsStep(items: seq<ItemPayload>, i: nat, its: seq<Item>)
    requires i < |items| && CheckItems(items[..i]) == Ok(its) && CheckItem(items[i]).Ok?
    ensures CheckItems(items[..i + 1]) == Ok(its + [CheckItem(items[i]).value])
  {
    assert items[..i + 1][..i] == items[..i];
  }

  lemma DetailRowsStep(ventaId: int, firstId: int, its: seq<Item>, it: Item)
    ensures DetailRows(ventaId, firstId, its + [it])
         == DetailRows(ventaId, firstId, its)
            + [Detalle(firstId + |its|, ventaId, IntegerAffinity(it.productoId), it.cantidad, it.precio, it.subtotal)]
  {
    assert (its + [it])[..|its|] == its;
  }

  /// One more UPDATE takes one more item's quantity into account.
  lemma DecrementStep(ps0: seq<Producto>, ps: seq<Producto>, its: seq<Item>, it: Item)
    requires |ps| == |ps0|
    requires forall k :: 0 <= k < |ps0| ==> ps[k] == ps0[k].(stock := ps0[k].stock - QtyFor(its, ps0[k].id))
    ensures var next := Decrement(ps, it.productoId, it.cantidad);
      && |next| == |ps0|
      && forall k :: 0 <= k < |ps0| ==> next[k] == ps0[k].(stock := ps0[k].stock - QtyFor(its + [it], ps0[k].id))
  {
    assert (its + [it])[..|its|] == its;
  }

  /// Each product's stock is its old stock less the quantities the items
  /// take from it; nothing else about the products changes.
  ghost predicate StockTaken(ps0: seq<Producto>, ps: seq<Producto>, its: seq<Item>)
  {
    |ps| == |ps0| &&
    forall k :: 0 <= k < |ps0| ==> ps[k] == ps0[k].(stock := ps0[k].stock - QtyFor(its, ps0[k].id))
  }

  /// Changing stock alone keeps productos in id order under its counter.
  lemma StockOnlyKeepsIds(ps0: seq<Producto>, ps: seq<Producto>, its: seq<Item>, last: int)
    requires TableOk(ps0, ProductoId, last) && StockTaken(ps0, ps, its)
    ensures TableOk(ps, ProductoId, last)
  {
    forall x | x in ps
      ensures ProductoId(x) <= last
    {
      var k :| 0 <= k < |ps| && ps[k] == x;
      assert ps0[k] in ps0;
    }
  }

  /// A sale with the next id and an invoice number not yet taken keeps
  /// ventas in id order and its invoice numbers distinct.
  lemma NewVentaKeepsInvariant(vs: seq<Venta>, last: int, v: Venta)
    requires TableOk(vs, VentaId, last) && FacturasDistinct(vs)
    requires v.id == last + 1 && !FacturaTaken(vs, v.numeroFactura)
    ensures TableOk(vs + [v], VentaId, last + 1) && FacturasDistinct(vs + [v])
  {
    AppendKeepsTable(vs, VentaId, last, v);
  }

  /// A row with the next id, appended, keeps the table in order under the
  /// counter moved on to that id.
  lemma AppendKeepsTable<T>(s: seq<T>, key: T -> int, last: int, x: T)
    requires TableOk(s, key, last) && key(x) == last + 1
    ensures TableOk(s + [x], key, last + 1)
  {
    var all := s + [x];
    forall i, j | 0 <= i < j < |all|
      ensures key(all[i]) < key(all[j])
    {
      assert all[i] == s[i] && s[i] in s;
    }
  }

  /// A client whose cédula is unused keeps the cédulas distinct.
  lemma AppendKeepsCedulas(cs: seq<Cliente>, c: Cliente)
    requires CedulasDistinct(cs) && !CedulaTaken(cs, c.cedula)
    ensures CedulasDistinct(cs + [c])
  {
  }

  /// A delete keeps the table in order under the same counter.
  lemma WithoutKeepsTable<T(!new)>(s: seq<T>, key: T -> int, last: int, id: int)
    requires TableOk(s, key, last)
    ensures TableOk(Without(s, key, id), key, last)
  {
    WithoutAscending(s, key, id);
  }

  /// The rows a sale appends keep detalle_ventas in id order under its
  /// counter.
  lemma DetailRowsAfter(ds: seq<Detalle>, last: int, ventaId: int, its: seq<Item>)
    requires TableOk(ds, DetalleId, last)
    ensures TableOk(ds + DetailRows(ventaId, last + 1, its), DetalleId, last + |its|)
  {
    var rows := DetailRows(ventaId, last + 1, its);
    var all := ds + rows;
    forall i, j | 0 <= i < j < |all|
      ensures DetalleId(all[i]) < DetalleId(all[j])
    {
      if i < |ds| {
        assert all[i] in ds;
      }
    }
    forall x | x in all
      ensures DetalleId(x) <= last + |its|
    {
      if x !in ds {
        var k :| 0 <= k < |rows| && rows[k] == x;
      }
    }
  }
}
