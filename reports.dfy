/** The reports page: consumption records filtered by an inclusive date range, then
    counted per service (bar chart) and summed per month (pie chart). */
module Reports {
  import opened Seqs
  import opened Tally
  import opened Fechas

  /** A consumption record as the backend lists it; `fecha` is an ISO date. */
  datatype Consumo = Consumo(id_consumo: string, cliente_id: string, vehiculo_id: string,
                             servicio: string, costo: real, fecha: string)

  /** The two date inputs; an empty one means "not chosen". */
  datatype Rango = Rango(inicio: string, fin: string)

  predicate EnRango(r: Rango, c: Consumo)
  {
    LexLe(r.inicio, c.fecha) && LexLe(c.fecha, r.fin)
  }

  /** `filtrarPorFecha`: without both ends nothing is dropped; with both, a record stays
      exactly when its date lies between them, both ends included, in the original order. */
  function FiltrarPorFecha(r: Rango, datos: seq<Consumo>): (f: seq<Consumo>)
    ensures IsSublist(f, datos)
    ensures r.inicio == "" || r.fin == "" ==> f == datos
    ensures r.inicio != "" && r.fin != "" ==>
              forall c :: c in f <==> c in datos && EnRango(r, c)
  {
    if r.inicio == "" || r.fin == "" then
      FilterAll(datos, _ => true);
      FilterIsSublist(datos, _ => true);
      datos
    else
      var p := (c: Consumo) => EnRango(r, c);
      FilterIsSublist(datos, p);
      Filter(datos, p)
  }

  function Servicio(c: Consumo): string { c.servicio }
  function Costo(c: Consumo): real { c.costo }

  /** The month bucket of a record: the `YYYY-MM` part of its date. The page names the
      bucket "month year" in the browser's language, which is one name per (year, month). */
  function Mes(c: Consumo): string
  {
    if |c.fecha| >= 7 then c.fecha[..7] else c.fecha
  }

  /** Both charts of `fetchData`. */
  datatype Graficas = Graficas(labelsServicios: seq<string>, dataServicios: seq<int>,
                               labelsIngresos: seq<string>, dataIngresos: seq<real>)

  /** A range that excludes every record keeps none. */
  lemma FiltrarNada(r: Rango, datos: seq<Consumo>)
    requires r.inicio != "" && r.fin != ""
    requires forall i :: 0 <= i < |datos| ==> !EnRango(r, datos[i])
    ensures FiltrarPorFecha(r, datos) == []
  {
    FilterNone(datos, (c: Consumo) => EnRango(r, c));
  }

  /** Both charts drawn from already filtered records: the bar chart has one bar per
      distinct service in first-seen order, each at least 1, adding up to the number of
      records; the pie chart has one slice per month in first-seen order, each the
      month's income, adding up to the records' total cost. */
  method Graficar(filtrados: seq<Consumo>) returns (g: Graficas)
    ensures g.labelsServicios == FirstSeen(Map(Servicio, filtrados))
    ensures |g.dataServicios| == |g.labelsServicios|
    ensures forall j :: 0 <= j < |g.labelsServicios| ==>
              g.dataServicios[j] == Occurrences(Map(Servicio, filtrados), g.labelsServicios[j])
    ensures forall j :: 0 <= j < |g.dataServicios| ==> g.dataServicios[j] >= 1
    ensures SumInt(g.dataServicios) == |filtrados|
    ensures g.labelsIngresos == FirstSeen(Map(Mes, filtrados))
    ensures |g.dataIngresos| == |g.labelsIngresos|
    ensures forall j :: 0 <= j < |g.labelsIngresos| ==>
              g.dataIngresos[j] == SumFor(Map(Mes, filtrados), Map(Costo, filtrados), g.labelsIngresos[j])
    ensures Sum(g.dataIngresos) == Sum(Map(Costo, filtrados))
  {
    var servicios, meses, costos := Map(Servicio, filtrados), Map(Mes, filtrados), Map(Costo, filtrados);
    var ls, ds := CountByKey(servicios);
    var li, di := SumByKey(meses, costos);
    g := Graficas(ls, ds, li, di);
  }

  /** `fetchData` once the records arrive: the charts of the records the range keeps. */
  method FetchData(rango: Rango, consumos: seq<Consumo>) returns (filtrados: seq<Consumo>, g: Graficas)
    ensures filtrados == FiltrarPorFecha(rango, consumos)
    ensures g.labelsServicios == FirstSeen(Map(Servicio, filtrados))
    ensures |g.dataServicios| == |g.labelsServicios|
    ensures forall j :: 0 <= j < |g.labelsServicios| ==>
              g.dataServicios[j] == Occurrences(Map(Servicio, filtrados), g.labelsServicios[j])
    ensures forall j :: 0 <= j < |g.dataServicios| ==> g.dataServicios[j] >= 1
    ensures SumInt(g.dataServicios) == |filtrados|
    ensures g.labelsIngresos == FirstSeen(Map(Mes, filtrados))
    ensures |g.dataIngresos| == |g.labelsIngresos|
    ensures forall j :: 0 <= j < |g.labelsIngresos| ==>
              g.dataIngresos[j] == SumFor(Map(Mes, filtrados), Map(Costo, filtrados), g.labelsIngresos[j])
    ensures Sum(g.dataIngresos) == Sum(Map(Costo, filtrados))
    ensures filtrados == [] ==> g == Graficas([], [], [], [])
  {
    filtrados := FiltrarPorFecha(rango, consumos);
    g := Graficar(filtrados);
  }
}
