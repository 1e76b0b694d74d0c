/** The diagnostics router: get, create, update and delete by `id_diagnostico`, and the
    complete diagnostic that stores a header and its details in one commit. */
module DiagnosticosApi {
  import opened Seqs
  import opened Api

  const NoEncontrado := "Diagnóstico no encontrado"
  const YaExiste := "El diagnóstico ya existe"

  /** `listar_diagnosticos`: every row once, in the order the database returns them. */
  function ListarDiagnosticos(db: BaseDeDatos, orden: seq<string>): (r: seq<Diagnostico>)
    reads db
    requires Enumera(orden, db.diagnosticos)
    ensures |r| == |orden| == |db.diagnosticos|
    ensures forall i :: 0 <= i < |r| ==> r[i] == db.diagnosticos[orden[i]]
  {
    Filas(db.diagnosticos, orden)
  }

  /** `obtener_diagnostico`: the row, or 404. */
  function ObtenerDiagnostico(db: BaseDeDatos, id: string): (r: Resultado<Diagnostico>)
    reads db
    ensures r.Ok? <==> id in db.diagnosticos
    ensures r.Ok? ==> r.valor == db.diagnosticos[id]
    ensures r.Fallo? ==> r == Fallo(404, NoEncontrado)
  {
    if id in db.diagnosticos then Ok(db.diagnosticos[id]) else Fallo(404, NoEncontrado)
  }

  /** `crear_diagnostico`: 400 and no change when the id is taken; otherwise that row
      is added. */
  method CrearDiagnostico(db: BaseDeDatos, d: Diagnostico) returns (r: Resultado<Diagnostico>)
    requires db.Valid()
    modifies db
    ensures db.Valid()
    ensures d.id_diagnostico in old(db.diagnosticos) ==> r == Fallo(400, YaExiste) && Intacta(db)
    ensures d.id_diagnostico !in old(db.diagnosticos) ==>
              && r == Ok(d) && db.diagnosticos == old(db.diagnosticos)[d.id_diagnostico := d]
              && FueraIntacta(db, {"diagnosticos"})
  {
    if d.id_diagnostico in db.diagnosticos {
      return Fallo(400, YaExiste);
    }
    db.diagnosticos := db.diagnosticos[d.id_diagnostico := d];
    r := Ok(d);
  }

  /** `actualizar_diagnostico`: 404 when absent; otherwise every field is overwritten,
      the key included, and a new key already in use fails the commit. */
  method ActualizarDiagnostico(db: BaseDeDatos, id: string, datos: Diagnostico) returns (r: Resultado<Diagnostico>)
    requires db.Valid()
    modifies db
    ensures db.Valid()
    ensures id !in old(db.diagnosticos) ==> r == Fallo(404, NoEncontrado) && Intacta(db)
    ensures id in old(db.diagnosticos) && datos.id_diagnostico != id && datos.id_diagnostico in old(db.diagnosticos) ==>
              r == Fallo(500, ErrorInterno) && Intacta(db)
    ensures id in old(db.diagnosticos) && (datos.id_diagnostico == id || datos.id_diagnostico !in old(db.diagnosticos)) ==>
              && r == Ok(datos)
              && db.diagnosticos == (old(db.diagnosticos) - {id})[datos.id_diagnostico := datos]
              && FueraIntacta(db, {"diagnosticos"})
  {
    if id !in db.diagnosticos {
      return Fallo(404, NoEncontrado);
    }
    if datos.id_diagnostico != id && datos.id_diagnostico in db.diagnosticos {
      return Fallo(500, ErrorInterno);
    }
    db.diagnosticos := (db.diagnosticos - {id})[datos.id_diagnostico := datos];
    r := Ok(datos);
  }

  /** `eliminar_diagnostico`: 404 when absent; otherwise only that key goes. */
  method EliminarDiagnostico(db: BaseDeDatos, id: string) returns (r: Resultado<string>)
    requires db.Valid()
    modifies db
    ensures db.Valid()
    ensures id !in old(db.diagnosticos) ==> r == Fallo(404, NoEncontrado) && Intacta(db)
    ensures id in old(db.diagnosticos) ==>
              && r == Ok("Diagnóstico eliminado") && db.diagnosticos == old(db.diagnosticos) - {id}
              && FueraIntacta(db, {"diagnosticos"})
  {
    if id !in db.diagnosticos {
      return Fallo(404, NoEncontrado);
    }
    db.diagnosticos := db.diagnosticos - {id};
    r := Ok("Diagnóstico eliminado");
  }

  /** The body of `POST /diagnosticos/completo`. */
  datatype DiagnosticoCompleto = DiagnosticoCompleto(id_diagnostico: string, placa: string, fecha: string,
                                                     detalles: seq<DetalleDiagnostico>)

  function IdDetalle(d: DetalleDiagnostico): string { d.id_detalle }

  /** Every detail id of the payload is new to the table and to the payload. */
  predicate DetallesLibres(m: map<string, DetalleDiagnostico>, ds: seq<DetalleDiagnostico>)
  {
    Distinct(Map(IdDetalle, ds)) && forall i :: 0 <= i < |ds| ==> ds[i].id_detalle !in m
  }

  /** The row stored for one payload detail: its own id, component and value, under
      the header's diagnostic id. */
  function Fila(id: string, d: DetalleDiagnostico): DetalleDiagnostico
  {
    DetalleDiagnostico(d.id_detalle, id, d.componente, d.valor)
  }

  /** The detail table after adding, in order, the rows of `ds` under diagnostic `id`. */
  function ConDetalles(m: map<string, DetalleDiagnostico>, id: string, ds: seq<DetalleDiagnostico>)
    : map<string, DetalleDiagnostico>
  {
    if ds == [] then m
    else ConDetalles(m, id, ds[..|ds| - 1])[ds[|ds| - 1].id_detalle := Fila(id, ds[|ds| - 1])]
  }

  /** The table gains exactly the payload's detail ids. */
  lemma {:induction false} ConDetallesClaves(m: map<string, DetalleDiagnostico>, id: string, ds: seq<DetalleDiagnostico>)
    ensures forall k :: k in ConDetalles(m, id, ds) <==> k in m || k in Map(IdDetalle, ds)
  {
    if ds != [] {
      var q := ds[..|ds| - 1];
      ConDetallesClaves(m, id, q);
      assert Map(IdDetalle, ds) == Map(IdDetalle, q) + [ds[|ds| - 1].id_detalle];
    }
  }

  /** With fresh, distinct ids: the old rows stay, and each payload detail is stored
      under its own id with the header's diagnostic id. */
  lemma {:induction false} ConDetallesContenido(m: map<string, DetalleDiagnostico>, id: string, ds: seq<DetalleDiagnostico>)
    requires DetallesLibres(m, ds)
    ensures forall k :: k in m ==> k in ConDetalles(m, id, ds) && ConDetalles(m, id, ds)[k] == m[k]
    ensures forall i :: 0 <= i < |ds| ==>
              ds[i].id_detalle in ConDetalles(m, id, ds) && ConDetalles(m, id, ds)[ds[i].id_detalle] == Fila(id, ds[i])
  {
    if ds != [] {
      var q := ds[..|ds| - 1];
      assert forall i :: 0 <= i < |q| ==> q[i] == ds[i];
      assert Map(IdDetalle, q) == Map(IdDetalle, ds)[..|q|];
      ConDetallesContenido(m, id, q);
      forall i | 0 <= i < |q| ensures q[i].id_detalle != ds[|ds| - 1].id_detalle {
        assert Map(IdDetalle, ds)[i] == q[i].id_detalle;
        assert Map(IdDetalle, ds)[|ds| - 1] == ds[|ds| - 1].id_detalle;
      }
    }
  }

  /** Every row the complete diagnostic stores belongs to its header. */
  lemma DetallesDelEncabezado(m: map<string, DetalleDiagnostico>, id: string, ds: seq<DetalleDiagnostico>)
    requires DetallesLibres(m, ds)
    ensures forall k :: k in ConDetalles(m, id, ds) && k !in m ==> ConDetalles(m, id, ds)[k].id_diagnostico == id
  {
    ConDetallesContenido(m, id, ds);
    ConDetallesClaves(m, id, ds);
    forall k | k in ConDetalles(m, id, ds) && k !in m
      ensures ConDetalles(m, id, ds)[k].id_diagnostico == id
    {
      var i :| 0 <= i < |ds| && Map(IdDetalle, ds)[i] == k;
    }
  }

  lemma {:induction false} ConDetallesValido(m: map<string, DetalleDiagnostico>, id: string, ds: seq<DetalleDiagnostico>)
    requires forall k :: k in m ==> m[k].id_detalle == k
    ensures forall k :: k in ConDetalles(m, id, ds) ==> ConDetalles(m, id, ds)[k].id_detalle == k
  {
    if ds != [] {
      ConDetallesValido(m, id, ds[..|ds| - 1]);
    }
  }

  /** The `for d in diagnostico.detalles` loop, one `db.add` per payload detail. */
  method AgregarDetalles(m: map<string, DetalleDiagnostico>, id: string, ds: seq<DetalleDiagnostico>)
    returns (r: map<string, DetalleDiagnostico>)
    ensures r == ConDetalles(m, id, ds)
  {
    r := m;
    var i := 0;
    while i < |ds|
      invariant 0 <= i <= |ds|
      invariant r == ConDetalles(m, id, ds[..i])
    {
      assert ds[..i + 1][..i] == ds[..i];
      r := r[ds[i].id_detalle := Fila(id, ds[i])];
      i := i + 1;
    }
    assert ds[..i] == ds;
  }

  /** `crear_diagnostico_completo`: an existing id is rejected with 400 before anything
      is added. Otherwise the header (id, placa, fecha) and one row per payload detail
      are added in one commit; a detail id that is repeated or already stored fails the
      commit, and then nothing is stored. */
  method CrearDiagnosticoCompleto(db: BaseDeDatos, d: DiagnosticoCompleto) returns (r: Resultado<string>)
    requires db.Valid()
    modifies db
    ensures db.Valid()
    ensures d.id_diagnostico in old(db.diagnosticos) ==> r == Fallo(400, YaExiste) && Intacta(db)
    ensures d.id_diagnostico !in old(db.diagnosticos) && !DetallesLibres(old(db.detalles), d.detalles) ==>
              r == Fallo(500, ErrorInterno) && Intacta(db)
    ensures d.id_diagnostico !in old(db.diagnosticos) && DetallesLibres(old(db.detalles), d.detalles) ==>
              && r == Ok("Diagnóstico completo guardado correctamente")
              && db.diagnosticos == old(db.diagnosticos)[d.id_diagnostico := Diagnostico(d.id_diagnostico, d.placa, d.fecha)]
              && db.detalles == ConDetalles(old(db.detalles), d.id_diagnostico, d.detalles)
              && FueraIntacta(db, {"diagnosticos", "detalles"})
  {
    if d.id_diagnostico in db.diagnosticos {
      return Fallo(400, YaExiste);
    }
    if !DetallesLibres(db.detalles, d.detalles) {
      return Fallo(500, ErrorInterno);
    }
    db.diagnosticos := db.diagnosticos[d.id_diagnostico := Diagnostico(d.id_diagnostico, d.placa, d.fecha)];
    var nuevos := AgregarDetalles(db.detalles, d.id_diagnostico, d.detalles);
    db.detalles := nuevos;
    ConDetallesValido(old(db.detalles), d.id_diagnostico, d.detalles);
    r := Ok("Diagnóstico completo guardado correctamente");
  }
}
