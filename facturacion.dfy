/** The invoicing page: a list of selected services without repeated names, the
    subtotal, the 16% tax and the total, and the guard in front of the invoice. */
module Facturacion {
  import opened Wrappers
  import opened Seqs

  datatype Servicio = Servicio(nombre: string, precio: real)

  /** The services offered on the page, with their prices. */
  const ServiciosDisponibles: seq<Servicio> := [
    Servicio("Cambio de Aceite", 30.0),
    Servicio("Alineación y Balanceo", 50.0),
    Servicio("Cambio de Filtros", 40.0),
    Servicio("Revisión General", 80.0),
    Servicio("Cambio de Batería", 100.0)
  ]

  /** `ss.some((s) => s.nombre === nombre)`. */
  predicate Presente(ss: seq<Servicio>, nombre: string)
  {
    exists i :: 0 <= i < |ss| && ss[i].nombre == nombre
  }

  predicate NombresDistintos(ss: seq<Servicio>)
  {
    forall i, j :: 0 <= i < j < |ss| ==> ss[i].nombre != ss[j].nombre
  }

  /** The selection after pressing a service's button. */
  function Agregado(ss: seq<Servicio>, s: Servicio): (r: seq<Servicio>)
    ensures Presente(r, s.nombre)
    ensures |ss| <= |r| <= |ss| + 1 && r[..|ss|] == ss
    ensures |r| == |ss| <==> Presente(ss, s.nombre)
    ensures |r| == |ss| + 1 ==> r[|ss|] == s
  {
    if Presente(ss, s.nombre) then ss
    else
      assert (ss + [s])[|ss|] == s;
      ss + [s]
  }

  /** Pressing the same button twice is pressing it once. */
  lemma AgregadoIdempotente(ss: seq<Servicio>, s: Servicio)
    ensures Agregado(Agregado(ss, s), s) == Agregado(ss, s)
  {
  }

  /** Selected names stay pairwise distinct. */
  lemma AgregadoDistintos(ss: seq<Servicio>, s: Servicio)
    requires NombresDistintos(ss)
    ensures NombresDistintos(Agregado(ss, s))
  {
    if !Presente(ss, s.nombre) {
      var r := ss + [s];
      forall i, j | 0 <= i < j < |r|
        ensures r[i].nombre != r[j].nombre
      {
        if j == |ss| {
          assert r[i] == ss[i];
        }
      }
    }
  }

  function Precio(s: Servicio): real { s.precio }

  /** `ss.reduce((sum, s) => sum + s.precio, 0)`. */
  function Subtotal(ss: seq<Servicio>): real
  {
    Sum(Map(Precio, ss))
  }

  function Impuestos(ss: seq<Servicio>): real
  {
    Subtotal(ss) * 0.16
  }

  function Total(ss: seq<Servicio>): real
  {
    Subtotal(ss) + Impuestos(ss)
  }

  /** The subtotal of nothing is 0, and every service adds its price once. */
  lemma SubtotalAgregar(ss: seq<Servicio>, s: Servicio)
    ensures Subtotal([]) == 0.0
    ensures Subtotal(ss + [s]) == Subtotal(ss) + s.precio
  {
    MapPush(Precio, ss, s);
    SumAppend(Map(Precio, ss), s.precio);
  }

  /** The subtotal of two selections one after the other is the sum of theirs. */
  lemma {:induction false} SubtotalConcat(a: seq<Servicio>, b: seq<Servicio>)
    ensures Subtotal(a + b) == Subtotal(a) + Subtotal(b)
    decreases |b|
  {
    if b == [] {
      assert a + b == a;
      SubtotalAgregar(a, Servicio("", 0.0));
    } else {
      var c, x := b[..|b| - 1], b[|b| - 1];
      assert b == c + [x];
      assert a + b == (a + c) + [x];
      SubtotalConcat(a, c);
      SubtotalAgregar(a + c, x);
      SubtotalAgregar(c, x);
    }
  }

  /** Pressing the button of a service not yet selected raises the total by its price
      plus 16% tax; pressing one already selected leaves the total as it was. */
  lemma TotalAgregar(ss: seq<Servicio>, s: Servicio)
    ensures !Presente(ss, s.nombre) ==> Total(Agregado(ss, s)) == Total(ss) + 1.16 * s.precio
    ensures Presente(ss, s.nombre) ==> Total(Agregado(ss, s)) == Total(ss)
  {
    SubtotalAgregar(ss, s);
  }

  /** Removing row `i` lowers the subtotal by that service's price. */
  lemma SubtotalEliminar(ss: seq<Servicio>, i: int)
    requires 0 <= i < |ss|
    ensures Subtotal(DropIndex(ss, i)) == Subtotal(ss) - ss[i].precio
  {
    var d := DropIndex(ss, i);
    DropIndexSpec(ss, i);
    SubtotalSinFila(ss, i, d);
  }

  lemma SubtotalSinFila(ss: seq<Servicio>, i: int, d: seq<Servicio>)
    requires 0 <= i < |ss| && d == ss[..i] + ss[i + 1..]
    ensures Subtotal(d) == Subtotal(ss) - ss[i].precio
  {
    assert ss == ss[..i] + ([ss[i]] + ss[i + 1..]);
    SubtotalEnMedio(ss[..i], ss[i], ss[i + 1..]);
  }

  lemma SubtotalEnMedio(a: seq<Servicio>, x: Servicio, b: seq<Servicio>)
    ensures Subtotal(a + ([x] + b)) == Subtotal(a + b) + x.precio
  {
    SubtotalAgregar([], x);
    assert [] + [x] == [x];
    SubtotalConcat([x], b);
    SubtotalConcat(a, [x] + b);
    SubtotalConcat(a, b);
  }

  /** Removing row `i` lowers the total by that service's price plus 16% tax. */
  lemma TotalEliminar(ss: seq<Servicio>, i: int)
    requires 0 <= i < |ss|
    ensures Total(DropIndex(ss, i)) == Total(ss) - 1.16 * ss[i].precio
  {
    SubtotalEliminar(ss, i);
  }

  /** With prices that are not negative, taxes only add. */
  lemma SubtotalNoSuperaTotal(ss: seq<Servicio>)
    requires forall i :: 0 <= i < |ss| ==> ss[i].precio >= 0.0
    ensures 0.0 <= Subtotal(ss) <= Total(ss)
  {
    SumNonNegative(Map(Precio, ss));
  }

  /** What the generated invoice shows: its number and date, the client and vehicle,
      one row per selected service and the three amounts. */
  datatype Factura = Factura(numFactura: string, fecha: string, cliente: string, vehiculo: string,
                             filas: seq<Servicio>, subtotal: real, impuestos: real, total: real)

  class FacturacionPage {
    var clienteSeleccionado: string
    var vehiculoSeleccionado: string
    var serviciosSeleccionados: seq<Servicio>

    constructor()
      ensures clienteSeleccionado == "" && vehiculoSeleccionado == "" && serviciosSeleccionados == []
    {
      clienteSeleccionado, vehiculoSeleccionado, serviciosSeleccionados := "", "", [];
    }

    method SeleccionarCliente(c: string)
      modifies this
      ensures clienteSeleccionado == c
      ensures vehiculoSeleccionado == old(vehiculoSeleccionado)
      ensures serviciosSeleccionados == old(serviciosSeleccionados)
    {
      clienteSeleccionado := c;
    }

    method SeleccionarVehiculo(v: string)
      modifies this
      ensures vehiculoSeleccionado == v
      ensures clienteSeleccionado == old(clienteSeleccionado)
      ensures serviciosSeleccionados == old(serviciosSeleccionados)
    {
      vehiculoSeleccionado := v;
    }

    method AgregarServicio(s: Servicio)
      modifies this
      ensures serviciosSeleccionados == Agregado(old(serviciosSeleccionados), s)
      ensures clienteSeleccionado == old(clienteSeleccionado)
      ensures vehiculoSeleccionado == old(vehiculoSeleccionado)
    {
      if !Presente(serviciosSeleccionados, s.nombre) {
        serviciosSeleccionados := serviciosSeleccionados + [s];
      }
    }

    /** Removes exactly the row at `i`; an index outside the list changes nothing. */
    method EliminarServicio(i: int)
      modifies this
      ensures serviciosSeleccionados
              == if 0 <= i < |old(serviciosSeleccionados)|
                 then old(serviciosSeleccionados)[..i] + old(serviciosSeleccionados)[i + 1..]
                 else old(serviciosSeleccionados)
      ensures clienteSeleccionado == old(clienteSeleccionado)
      ensures vehiculoSeleccionado == old(vehiculoSeleccionado)
    {
      DropIndexSpec(serviciosSeleccionados, i);
      serviciosSeleccionados := DropIndex(serviciosSeleccionados, i);
    }

    /** No invoice without a client, a vehicle and at least one service; otherwise the
        invoice lists the selection in order with its subtotal, tax and total. */
    method GenerarPdf(numFactura: string, fecha: string) returns (r: Option<Factura>)
      ensures r.None? <==> clienteSeleccionado == "" || vehiculoSeleccionado == "" || serviciosSeleccionados == []
      ensures r.Some? ==> r.value.filas == serviciosSeleccionados
                          && r.value.cliente == clienteSeleccionado && r.value.vehiculo == vehiculoSeleccionado
                          && r.value.numFactura == numFactura && r.value.fecha == fecha
                          && r.value.subtotal == Subtotal(serviciosSeleccionados)
                          && r.value.total == 1.16 * r.value.subtotal
                          && r.value.impuestos == r.value.total - r.value.subtotal
    {
      if clienteSeleccionado == "" || vehiculoSeleccionado == "" || |serviciosSeleccionados| == 0 {
        return None;
      }
      r := Some(Factura(numFactura, fecha, clienteSeleccionado, vehiculoSeleccionado, serviciosSeleccionados,
                        Subtotal(serviciosSeleccionados), Impuestos(serviciosSeleccionados),
                        Total(serviciosSeleccionados)));
    }
  }
}
