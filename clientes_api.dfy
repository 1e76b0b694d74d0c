/** The clients router: list, get, create, update and delete by client `id`, and the
    schema's rule for `estado`. */
module ClientesApi {
  import opened Wrappers
  import opened Api

  const NoEncontrado := "Cliente no encontrado"

  /** The schema's `estado`: "Activo" or "Inactivo", "Activo" when the body leaves it
      out, and a validation error (422) for anything else. */
  function EstadoDesde(estado: Option<string>): (r: Resultado<Estado>)
    ensures r == Ok(Activo) <==> estado == None || estado == Some("Activo")
    ensures r == Ok(Inactivo) <==> estado == Some("Inactivo")
    ensures r.Fallo? <==> estado.Some? && estado.value != "Activo" && estado.value != "Inactivo"
    ensures r.Fallo? ==> r.status == 422
  {
    match estado
    case None => Ok(Activo)
    case Some(e) =>
      if e == "Activo" then Ok(Activo)
      else if e == "Inactivo" then Ok(Inactivo)
      else Fallo(422, "Input should be 'Activo' or 'Inactivo'")
  }

  /** `listar_clientes`: every row once, in the order the database returns them. */
  function ListarClientes(db: BaseDeDatos, orden: seq<string>): (r: seq<Cliente>)
    reads db
    requires Enumera(orden, db.clientes)
    ensures |r| == |orden| == |db.clientes|
    ensures forall i :: 0 <= i < |r| ==> r[i] == db.clientes[orden[i]]
  {
    Filas(db.clientes, orden)
  }

  /** `obtener_cliente`: the row, or 404. */
  function ObtenerCliente(db: BaseDeDatos, id: string): (r: Resultado<Cliente>)
    reads db
    ensures r.Ok? <==> id in db.clientes
    ensures r.Ok? ==> r.valor == db.clientes[id]
    ensures r.Fallo? ==> r == Fallo(404, NoEncontrado)
  {
    if id in db.clientes then Ok(db.clientes[id]) else Fallo(404, NoEncontrado)
  }

  /** `crear_cliente` adds the row without looking for the id first: there is no 400
      here, and a taken id only shows up as the primary key failing the commit. */
  method CrearCliente(db: BaseDeDatos, c: Cliente) returns (r: Resultado<Cliente>)
    requires db.Valid()
    modifies db
    ensures db.Valid()
    ensures r.Fallo? ==> r.status != 400
    ensures c.id in old(db.clientes) ==> r == Fallo(500, ErrorInterno) && Intacta(db)
    ensures c.id !in old(db.clientes) ==>
              r == Ok(c) && db.clientes == old(db.clientes)[c.id := c] && FueraIntacta(db, {"clientes"})
  {
    if c.id in db.clientes {
      return Fallo(500, ErrorInterno);
    }
    db.clientes := db.clientes[c.id := c];
    r := Ok(c);
  }

  /** `actualizar_cliente`: 404 when absent; otherwise every field is overwritten, the
      id included, and a new id already in use fails the commit. */
  method ActualizarCliente(db: BaseDeDatos, id: string, datos: Cliente) returns (r: Resultado<Cliente>)
    requires db.Valid()
    modifies db
    ensures db.Valid()
    ensures id !in old(db.clientes) ==> r == Fallo(404, NoEncontrado) && Intacta(db)
    ensures id in old(db.clientes) && datos.id != id && datos.id in old(db.clientes) ==>
              r == Fallo(500, ErrorInterno) && Intacta(db)
    ensures id in old(db.clientes) && (datos.id == id || datos.id !in old(db.clientes)) ==>
              && r == Ok(datos)
              && db.clientes == (old(db.clientes) - {id})[datos.id := datos]
              && FueraIntacta(db, {"clientes"})
  {
    if id !in db.clientes {
      return Fallo(404, NoEncontrado);
    }
    if datos.id != id && datos.id in db.clientes {
      return Fallo(500, ErrorInterno);
    }
    db.clientes := (db.clientes - {id})[datos.id := datos];
    r := Ok(datos);
  }

  /** `eliminar_cliente`: 404 when absent; otherwise only that id goes. */
  method EliminarCliente(db: BaseDeDatos, id: string) returns (r: Resultado<string>)
    requires db.Valid()
    modifies db
    ensures db.Valid()
    ensures id !in old(db.clientes) ==> r == Fallo(404, NoEncontrado) && Intacta(db)
    ensures id in old(db.clientes) ==>
              r == Ok("Cliente eliminado") && db.clientes == old(db.clientes) - {id} && FueraIntacta(db, {"clientes"})
  {
    if id !in db.clientes {
      return Fallo(404, NoEncontrado);
    }
    db.clientes := db.clientes - {id};
    r := Ok("Cliente eliminado");
  }
}
