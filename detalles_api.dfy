/** The diagnostic details router: get, create, update and delete by `id_detalle`, and
    the details of every diagnostic of one plate. */
module DetallesApi {
  import opened Seqs
  import opened Api

  const NoEncontrado := "Detalle no encontrado"
  const YaExiste := "El detalle ya existe"
  const SinDetallesPlaca := "No se encontraron detalles para la placa"

  /** `listar_detalles`: every row once, in the order the database returns them. */
  function ListarDetalles(db: BaseDeDatos, orden: seq<string>): (r: seq<DetalleDiagnostico>)
    reads db
    requires Enumera(orden, db.detalles)
    ensures |r| == |orden| == |db.detalles|
    ensures forall i :: 0 <= i < |r| ==> r[i] == db.detalles[orden[i]]
  {
    Filas(db.detalles, orden)
  }

  /** `obtener_detalle`: the row, or 404. */
  function ObtenerDetalle(db: BaseDeDatos, id: string): (r: Resultado<DetalleDiagnostico>)
    reads db
    ensures r.Ok? <==> id in db.detalles
    ensures r.Ok? ==> r.valor == db.detalles[id]
    ensures r.Fallo? ==> r == Fallo(404, NoEncontrado)
  {
    if id in db.detalles then Ok(db.detalles[id]) else Fallo(404, NoEncontrado)
  }

  /** The inner join: the detail's diagnostic exists and is for that plate. */
  predicate DeLaPlaca(diagnosticos: map<string, Diagnostico>, placa: string, d: DetalleDiagnostico)
  {
    d.id_diagnostico in diagnosticos && diagnosticos[d.id_diagnostico].placa == placa
  }

  /** `obtener_por_placa`: the details whose diagnostic has that plate, in table order,
      or 404 when there is none. */
  function ObtenerPorPlaca(db: BaseDeDatos, placa: string, orden: seq<string>): (r: Resultado<seq<DetalleDiagnostico>>)
    reads db
    requires Enumera(orden, db.detalles)
    ensures r.Fallo? <==> forall d :: d in db.detalles.Values ==> !DeLaPlaca(db.diagnosticos, placa, d)
    ensures r.Fallo? ==> r == Fallo(404, SinDetallesPlaca)
    ensures r.Ok? ==> r.valor != [] && IsSublist(r.valor, Filas(db.detalles, orden))
    ensures r.Ok? ==> forall d :: d in r.valor <==> d in db.detalles.Values && DeLaPlaca(db.diagnosticos, placa, d)
  {
    var diagnosticos := db.diagnosticos;
    var p := (d: DetalleDiagnostico) => DeLaPlaca(diagnosticos, placa, d);
    var fs := Filas(db.detalles, orden);
    FilasValores(db.detalles, orden);
    FilterIsSublist(fs, p);
    var ds := Filter(fs, p);
    if ds == [] then
      assert forall d :: d in db.detalles.Values ==> !p(d);
      Fallo(404, SinDetallesPlaca)
    else
      assert ds[0] in db.detalles.Values && p(ds[0]);
      Ok(ds)
  }

  /** `crear_detalle`: 400 and no change on a duplicate id; otherwise the row is added. */
  method CrearDetalle(db: BaseDeDatos, d: DetalleDiagnostico) returns (r: Resultado<DetalleDiagnostico>)
    requires db.Valid()
    modifies db
    ensures db.Valid()
    ensures d.id_detalle in old(db.detalles) ==> r == Fallo(400, YaExiste) && Intacta(db)
    ensures d.id_detalle !in old(db.detalles) ==>
              r == Ok(d) && db.detalles == old(db.detalles)[d.id_detalle := d] && FueraIntacta(db, {"detalles"})
  {
    if d.id_detalle in db.detalles {
      return Fallo(400, YaExiste);
    }
    db.detalles := db.detalles[d.id_detalle := d];
    r := Ok(d);
  }

  /** `actualizar_detalle`: 404 when absent; otherwise every field is overwritten, the
      key included, and a new key already in use fails the commit. */
  method ActualizarDetalle(db: BaseDeDatos, id: string, datos: DetalleDiagnostico) returns (r: Resultado<DetalleDiagnostico>)
    requires db.Valid()
    modifies db
    ensures db.Valid()
    ensures id !in old(db.detalles) ==> r == Fallo(404, NoEncontrado) && Intacta(db)
    ensures id in old(db.detalles) && datos.id_detalle != id && datos.id_detalle in old(db.detalles) ==>
              r == Fallo(500, ErrorInterno) && Intacta(db)
    ensures id in old(db.detalles) && (datos.id_detalle == id || datos.id_detalle !in old(db.detalles)) ==>
              && r == Ok(datos)
              && db.detalles == (old(db.detalles) - {id})[datos.id_detalle := datos]
              && FueraIntacta(db, {"detalles"})
  {
    if id !in db.detalles {
      return Fallo(404, NoEncontrado);
    }
    if datos.id_detalle != id && datos.id_detalle in db.detalles {
      return Fallo(500, ErrorInterno);
    }
    db.detalles := (db.detalles - {id})[datos.id_detalle := datos];
    r := Ok(datos);
  }

  /** `eliminar_detalle`: 404 when absent; otherwise only that key goes. */
  method EliminarDetalle(db: BaseDeDatos, id: string) returns (r: Resultado<string>)
    requires db.Valid()
    modifies db
    ensures db.Valid()
    ensures id !in old(db.detalles) ==> r == Fallo(404, NoEncontrado) && Intacta(db)
    ensures id in old(db.detalles) ==>
              r == Ok("Detalle eliminado") && db.detalles == old(db.detalles) - {id} && FueraIntacta(db, {"detalles"})
  {
    if id !in db.detalles {
      return Fallo(404, NoEncontrado);
    }
    db.detalles := db.detalles - {id};
    r := Ok("Detalle eliminado");
  }
}
