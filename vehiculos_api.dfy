/** The vehicles router: create, update and delete by plate, and the two listings that
    join each vehicle with its owner's name. */
module VehiculosApi {
  import opened Seqs
  import opened Api

  const NoEncontrado := "Vehículo no encontrado"
  const YaExiste := "Vehículo ya existe"
  const SinCliente := "No registrado"

  /** `VehiculoOut`: what `response_model` lets through. */
  datatype VehiculoOut = VehiculoOut(placa: string, marca: string, modelo: string)

  function Salida(v: Vehiculo): VehiculoOut
  {
    VehiculoOut(v.placa, v.marca, v.modelo)
  }

  /** One entry of `listar_vehiculos`. */
  datatype Listado = Listado(placa: string, marca: string, modelo: string, cliente_id: string,
                             cliente_nombre: string)

  /** `cliente.nombre if cliente else "No registrado"`. */
  function NombreDueno(clientes: map<string, Cliente>, id: string): (n: string)
    ensures id in clientes ==> n == clientes[id].nombre
    ensures id !in clientes ==> n == SinCliente
  {
    if id in clientes then clientes[id].nombre else SinCliente
  }

  function Entrada(v: Vehiculo, clientes: map<string, Cliente>): Listado
  {
    Listado(v.placa, v.marca, v.modelo, v.cliente_id, NombreDueno(clientes, v.cliente_id))
  }

  function SalidaListado(l: Listado): VehiculoOut
  {
    VehiculoOut(l.placa, l.marca, l.modelo)
  }

  /** The `for v in vehiculos: resultado.append(...)` loop both listings share: one
      entry per vehicle, in order, each with its owner's name. */
  method Unir(vs: seq<Vehiculo>, clientes: map<string, Cliente>) returns (r: seq<Listado>)
    ensures |r| == |vs|
    ensures forall i :: 0 <= i < |r| ==>
              && r[i].placa == vs[i].placa && r[i].marca == vs[i].marca && r[i].modelo == vs[i].modelo
              && r[i].cliente_id == vs[i].cliente_id
              && r[i].cliente_nombre == NombreDueno(clientes, vs[i].cliente_id)
  {
    r := [];
    var i := 0;
    while i < |vs|
      invariant 0 <= i <= |vs| && |r| == i
      invariant forall j :: 0 <= j < i ==> r[j] == Entrada(vs[j], clientes)
    {
      r := r + [Entrada(vs[i], clientes)];
      i := i + 1;
    }
  }

  /** `crear_vehiculo`: 400 and no change when the plate is taken; otherwise the row is
      added and its public part returned. */
  method CrearVehiculo(db: BaseDeDatos, v: Vehiculo) returns (r: Resultado<VehiculoOut>)
    requires db.Valid()
    modifies db
    ensures db.Valid()
    ensures v.placa in old(db.vehiculos) ==> r == Fallo(400, YaExiste) && Intacta(db)
    ensures v.placa !in old(db.vehiculos) ==>
              && r == Ok(VehiculoOut(v.placa, v.marca, v.modelo))
              && db.vehiculos == old(db.vehiculos)[v.placa := v] && FueraIntacta(db, {"vehiculos"})
  {
    if v.placa in db.vehiculos {
      return Fallo(400, YaExiste);
    }
    db.vehiculos := db.vehiculos[v.placa := v];
    r := Ok(Salida(v));
  }

  /** `actualizar_vehiculo`: 404 when the plate is absent; otherwise every field is
      overwritten, the plate included, and a new plate already in use fails the commit. */
  method ActualizarVehiculo(db: BaseDeDatos, placa: string, datos: Vehiculo) returns (r: Resultado<VehiculoOut>)
    requires db.Valid()
    modifies db
    ensures db.Valid()
    ensures placa !in old(db.vehiculos) ==> r == Fallo(404, NoEncontrado) && Intacta(db)
    ensures placa in old(db.vehiculos) && datos.placa != placa && datos.placa in old(db.vehiculos) ==>
              r == Fallo(500, ErrorInterno) && Intacta(db)
    ensures placa in old(db.vehiculos) && (datos.placa == placa || datos.placa !in old(db.vehiculos)) ==>
              && r == Ok(VehiculoOut(datos.placa, datos.marca, datos.modelo))
              && db.vehiculos == (old(db.vehiculos) - {placa})[datos.placa := datos]
              && FueraIntacta(db, {"vehiculos"})
  {
    if placa !in db.vehiculos {
      return Fallo(404, NoEncontrado);
    }
    if datos.placa != placa && datos.placa in db.vehiculos {
      return Fallo(500, ErrorInterno);
    }
    db.vehiculos := (db.vehiculos - {placa})[datos.placa := datos];
    r := Ok(Salida(datos));
  }

  /** `eliminar_vehiculo`: 404 when absent; otherwise only that plate goes. */
  method EliminarVehiculo(db: BaseDeDatos, placa: string) returns (r: Resultado<string>)
    requires db.Valid()
    modifies db
    ensures db.Valid()
    ensures placa !in old(db.vehiculos) ==> r == Fallo(404, NoEncontrado) && Intacta(db)
    ensures placa in old(db.vehiculos) ==>
              && r == Ok("Vehículo eliminado") && db.vehiculos == old(db.vehiculos) - {placa}
              && FueraIntacta(db, {"vehiculos"})
  {
    if placa !in db.vehiculos {
      return Fallo(404, NoEncontrado);
    }
    db.vehiculos := db.vehiculos - {placa};
    r := Ok("Vehículo eliminado");
  }

  /** `listar_vehiculos`: exactly one entry per vehicle, in the order the database
      returns them, named after the owner or "No registrado". */
  method ListarVehiculos(db: BaseDeDatos, orden: seq<string>) returns (r: seq<Listado>)
    requires db.Valid() && Enumera(orden, db.vehiculos)
    ensures |r| == |orden| == |db.vehiculos|
    ensures forall i :: 0 <= i < |r| ==>
              && r[i].placa == orden[i]
              && var v := db.vehiculos[orden[i]];
                 r[i] == Listado(v.placa, v.marca, v.modelo, v.cliente_id, NombreDueno(db.clientes, v.cliente_id))
  {
    var vs := Filas(db.vehiculos, orden);
    r := Unir(vs, db.clientes);
  }

  /** The vehicles of one client: `filter(Vehiculo.cliente_id == cliente_id)`. */
  function DelCliente(vs: seq<Vehiculo>, cliente_id: string): (r: seq<Vehiculo>)
    ensures IsSublist(r, vs)
    ensures forall v :: v in r <==> v in vs && v.cliente_id == cliente_id
  {
    FilterIsSublist(vs, (v: Vehiculo) => v.cliente_id == cliente_id);
    Filter(vs, (v: Vehiculo) => v.cliente_id == cliente_id)
  }

  /** `obtener_vehiculos_por_cliente`: exactly the client's vehicles, in table order;
      the owner name is computed and then dropped by `response_model`. */
  method VehiculosPorCliente(db: BaseDeDatos, cliente_id: string, orden: seq<string>) returns (r: seq<VehiculoOut>)
    requires Enumera(orden, db.vehiculos)
    ensures r == Map(Salida, DelCliente(Filas(db.vehiculos, orden), cliente_id))
  {
    var vs := DelCliente(Filas(db.vehiculos, orden), cliente_id);
    var unidos := Unir(vs, db.clientes);
    r := Map(SalidaListado, unidos);
  }

  /** A vehicle is among those listed for a client exactly when it is in the table
      under that client. */
  lemma PorClienteExacto(m: map<string, Vehiculo>, orden: seq<string>, cliente_id: string)
    requires Enumera(orden, m)
    ensures forall v :: v in DelCliente(Filas(m, orden), cliente_id) <==> v in m.Values && v.cliente_id == cliente_id
  {
    FilasValores(m, orden);
  }
}
