/** The dashboard: four counters and today's appointments, computed from the lists the
    backend returns. */
module Home {
  import opened Seqs
  import opened Agendar

  datatype Factura = Factura(id: string, total: real)

  datatype Metricas = Metricas(serviciosPendientes: int, citasHoy: int, ingresosMes: real,
                               serviciosEnProgreso: int)

  const MetricasIniciales := Metricas(0, 0, 0.0, 0)

  function Total(f: Factura): real { f.total }

  /** `facturas.reduce((acc, f) => acc + f.total, 0)`: every invoice counts, whatever its date. */
  function Ingresos(facturas: seq<Factura>): real
  {
    Sum(Map(Total, facturas))
  }

  /** One more invoice adds exactly its total. */
  lemma IngresosAgregar(facturas: seq<Factura>, f: Factura)
    ensures Ingresos([]) == 0.0
    ensures Ingresos(facturas + [f]) == Ingresos(facturas) + f.total
  {
    MapPush(Total, facturas, f);
    SumAppend(Map(Total, facturas), f.total);
  }

  /** Invoices with non-negative totals give non-negative income. */
  lemma IngresosNoNegativos(facturas: seq<Factura>)
    requires forall i :: 0 <= i < |facturas| ==> facturas[i].total >= 0.0
    ensures Ingresos(facturas) >= 0.0
  {
    SumNonNegative(Map(Total, facturas));
  }

  /** `cargarDatos` once the three lists arrive; `hoy` is today's ISO date. Pending
      services count every appointment, today's count is the length of the list shown
      as upcoming, which holds exactly today's appointments in order, and the services
      in progress count the diagnostics. */
  function Tablero<D>(citas: seq<Cita>, facturas: seq<Factura>, diagnosticos: seq<D>, hoy: string)
    : (r: (Metricas, seq<Cita>))
    ensures r.0.serviciosPendientes == |citas|
    ensures r.0.citasHoy == |r.1| && r.0.citasHoy <= r.0.serviciosPendientes
    ensures IsSublist(r.1, citas) && forall c :: c in r.1 <==> c in citas && c.fecha == hoy
    ensures forall c :: multiset(r.1)[c] == if c.fecha == hoy then multiset(citas)[c] else 0
    ensures r.0.ingresosMes == Ingresos(facturas)
    ensures r.0.serviciosEnProgreso == |diagnosticos|
  {
    var deHoy := DelDia(citas, hoy);
    (Metricas(|citas|, |deHoy|, Ingresos(facturas), |diagnosticos|), deHoy)
  }
}
