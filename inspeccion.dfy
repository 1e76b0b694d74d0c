/** The inspection checklist page: an estado and an observation per part of a fixed
    catalog, a completeness test, and the submission that checks its preconditions in
    order, posts a header and then one detail per part. */
module Inspeccion {
  import opened Wrappers
  import opened Seqs

  /** The catalog of parts, in display order. */
  const PartesVehiculo: seq<string> := [
    "Luces delanteras", "Luces traseras", "Frenos", "Aceite del motor",
    "Batería", "Filtro de aire", "Presión de neumáticos", "Amortiguadores",
    "Dirección", "Sistema de escape"
  ]

  lemma PartesDistintas()
    ensures |PartesVehiculo| == 10
    ensures forall i, j :: 0 <= i < j < |PartesVehiculo| ==> PartesVehiculo[i] != PartesVehiculo[j]
  {
  }

  /** `partes.reduce((m, parte) => { m[parte] = ""; return m; }, {})`: a map holding
      exactly the given parts, each set to "". */
  method MapaVacio(partes: seq<string>) returns (m: map<string, string>)
    ensures forall k :: k in m <==> k in partes
    ensures forall k :: k in m ==> m[k] == ""
  {
    m := map[];
    var i := 0;
    while i < |partes|
      invariant 0 <= i <= |partes|
      invariant forall k :: k in m <==> k in partes[..i]
      invariant forall k :: k in m ==> m[k] == ""
    {
      assert partes[..i + 1] == partes[..i] + [partes[i]];
      m := m[partes[i] := ""];
      i := i + 1;
    }
    assert partes[..i] == partes;
  }

  /** `partesVehiculo.every((parte) => inspeccion[parte] !== "")`; a part missing from
      the map reads as `undefined`, which is not "". */
  predicate Completa(inspeccion: map<string, string>)
  {
    forall i :: 0 <= i < |PartesVehiculo| ==>
      PartesVehiculo[i] !in inspeccion || inspeccion[PartesVehiculo[i]] != ""
  }

  predicate TienePartes(m: map<string, string>)
  {
    forall i :: 0 <= i < |PartesVehiculo| ==> PartesVehiculo[i] in m
  }

  /** On a map that holds every part, as the page's always does, the checklist is
      complete exactly when no part's estado is "". */
  lemma CompletaSiNingunaVacia(m: map<string, string>)
    requires TienePartes(m)
    ensures Completa(m) <==> forall i :: 0 <= i < |PartesVehiculo| ==> m[PartesVehiculo[i]] != ""
  {
  }

  /** The initial checklist is not complete; a map without the parts would count as
      complete, since the test only rejects an estado that is exactly "". */
  lemma CompletaCasosLimite(m: map<string, string>)
    requires forall k :: k in m <==> k in PartesVehiculo
    requires forall k :: k in m ==> m[k] == ""
    ensures !Completa(m)
    ensures Completa(map[])
  {
    assert PartesVehiculo[0] in m;
  }

  datatype Cliente = Cliente(id: string, nombre: string)
  datatype Vehiculo = Vehiculo(placa: string, marca: string, modelo: string)

  function BuscarCliente(clientes: seq<Cliente>, id: string): Option<Cliente>
  {
    Find(clientes, (c: Cliente) => c.id == id)
  }

  function BuscarVehiculo(vehiculos: seq<Vehiculo>, placa: string): Option<Vehiculo>
  {
    Find(vehiculos, (v: Vehiculo) => v.placa == placa)
  }

  /** The header posted first. */
  datatype Cabecera = Cabecera(id_inspeccion: string, placa: string, fecha: string)

  /** The body posted for one part. */
  datatype Detalle = Detalle(id_detalle: string, id_inspeccion: string, parte: string,
                             estado: string, observacion: string)

  /** What the page passes on to the diagnostic page. */
  datatype Navegacion = Navegacion(cliente: Option<Cliente>, vehiculo: Option<Vehiculo>,
                                   inspeccionActual: map<string, string>,
                                   observacionesActuales: map<string, string>, firmaCliente: bool)

  /** How `handleSiguiente` ended. */
  datatype Envio =
    | SinSeleccion
    | SinFirma
    | Cancelado
    | ErrorCabecera(cabecera: Cabecera)
    | Registrada(cabecera: Cabecera, detalles: seq<Detalle>, navegacion: Navegacion)

  class InspeccionPage {
    var clientes: seq<Cliente>
    var clienteSeleccionado: string
    var vehiculosCliente: seq<Vehiculo>
    var vehiculoSeleccionado: string
    var inspeccion: map<string, string>
    var observaciones: map<string, string>
    var firmaCliente: bool

    /** Both maps always hold every part of the catalog. */
    ghost predicate Valid()
      reads this
    {
      TienePartes(inspeccion) && TienePartes(observaciones)
    }

    /** The page with the clients the backend returned, nothing selected, and every part
        of both maps set to "". */
    constructor(clientes: seq<Cliente>)
      ensures Valid()
      ensures this.clientes == clientes && clienteSeleccionado == "" && vehiculosCliente == []
      ensures vehiculoSeleccionado == "" && !firmaCliente
      ensures forall k :: k in inspeccion <==> k in PartesVehiculo
      ensures forall k :: k in inspeccion ==> inspeccion[k] == ""
      ensures forall k :: k in observaciones <==> k in PartesVehiculo
      ensures forall k :: k in observaciones ==> observaciones[k] == ""
    {
      this.clientes := clientes;
      clienteSeleccionado, vehiculosCliente, vehiculoSeleccionado := "", [], "";
      var estados := MapaVacio(PartesVehiculo);
      var notas := MapaVacio(PartesVehiculo);
      inspeccion, observaciones := estados, notas;
      firmaCliente := false;
    }

    /** Choosing a client; `vehiculos` is what the backend returns for that client, and
        clearing the choice clears the vehicle list. */
    method SeleccionarCliente(id: string, vehiculos: seq<Vehiculo>)
      modifies this
      ensures clienteSeleccionado == id
      ensures vehiculosCliente == if id == "" then [] else vehiculos
      ensures clientes == old(clientes) && vehiculoSeleccionado == old(vehiculoSeleccionado)
      ensures inspeccion == old(inspeccion) && observaciones == old(observaciones)
      ensures firmaCliente == old(firmaCliente)
    {
      clienteSeleccionado := id;
      vehiculosCliente := if id == "" then [] else vehiculos;
    }

    method SeleccionarVehiculo(placa: string)
      modifies this
      ensures vehiculoSeleccionado == placa
      ensures clientes == old(clientes) && clienteSeleccionado == old(clienteSeleccionado)
      ensures vehiculosCliente == old(vehiculosCliente)
      ensures inspeccion == old(inspeccion) && observaciones == old(observaciones)
      ensures firmaCliente == old(firmaCliente)
    {
      vehiculoSeleccionado := placa;
    }

    method CambiarFirma(firmada: bool)
      modifies this
      ensures firmaCliente == firmada
      ensures clientes == old(clientes) && clienteSeleccionado == old(clienteSeleccionado)
      ensures vehiculosCliente == old(vehiculosCliente) && vehiculoSeleccionado == old(vehiculoSeleccionado)
      ensures inspeccion == old(inspeccion) && observaciones == old(observaciones)
    {
      firmaCliente := firmada;
    }

    /** `handleSelectChange`: the given part gets the given estado, every other entry
        stays, and both maps still hold every part. */
    method HandleSelectChange(parte: string, estado: string)
      requires Valid()
      modifies this
      ensures Valid()
      ensures inspeccion == old(inspeccion)[parte := estado]
      ensures forall k :: k in old(inspeccion) && k != parte ==> k in inspeccion && inspeccion[k] == old(inspeccion)[k]
      ensures observaciones == old(observaciones) && firmaCliente == old(firmaCliente)
      ensures clientes == old(clientes) && clienteSeleccionado == old(clienteSeleccionado)
      ensures vehiculosCliente == old(vehiculosCliente) && vehiculoSeleccionado == old(vehiculoSeleccionado)
    {
      inspeccion := inspeccion[parte := estado];
    }

    /** The observation box of one part. */
    method HandleObservacionChange(parte: string, texto: string)
      requires Valid()
      modifies this
      ensures Valid()
      ensures observaciones == old(observaciones)[parte := texto]
      ensures inspeccion == old(inspeccion) && firmaCliente == old(firmaCliente)
      ensures clientes == old(clientes) && clienteSeleccionado == old(clienteSeleccionado)
      ensures vehiculosCliente == old(vehiculosCliente) && vehiculoSeleccionado == old(vehiculoSeleccionado)
    {
      observaciones := observaciones[parte := texto];
    }

    /** `handleSiguiente`. `continuar` is the answer to the confirmation shown for an
        incomplete checklist, `uuid` and `fecha` the generated id and today's date,
        `cabeceraOk` whether the header post succeeded and `idsDetalle` the ids generated
        for the details. The checks run in order and the first failure ends the
        submission; a failed header post sends no detail; otherwise one detail per part
        goes out, in catalog order, all under the header's id. */
    method HandleSiguiente(continuar: bool, uuid: string, fecha: string, cabeceraOk: bool,
                           idsDetalle: seq<string>) returns (envio: Envio)
      requires Valid() && |idsDetalle| == |PartesVehiculo|
      ensures envio == SinSeleccion <==> clienteSeleccionado == "" || vehiculoSeleccionado == ""
      ensures envio == SinFirma <==> clienteSeleccionado != "" && vehiculoSeleccionado != "" && !firmaCliente
      ensures envio == Cancelado <==>
                clienteSeleccionado != "" && vehiculoSeleccionado != "" && firmaCliente
                && !Completa(inspeccion) && !continuar
      ensures envio.ErrorCabecera? || envio.Registrada? ==>
                envio.cabecera == Cabecera("INSP-" + uuid, vehiculoSeleccionado, fecha)
      ensures envio.ErrorCabecera? <==>
                clienteSeleccionado != "" && vehiculoSeleccionado != "" && firmaCliente
                && (Completa(inspeccion) || continuar) && !cabeceraOk
      ensures envio.Registrada? ==>
                && |envio.detalles| == |PartesVehiculo|
                && (forall i :: 0 <= i < |PartesVehiculo| ==>
                      envio.detalles[i] == Detalle(idsDetalle[i], "INSP-" + uuid, PartesVehiculo[i],
                                                   inspeccion[PartesVehiculo[i]],
                                                   observaciones[PartesVehiculo[i]]))
                && envio.navegacion == Navegacion(BuscarCliente(clientes, clienteSeleccionado),
                                                  BuscarVehiculo(vehiculosCliente, vehiculoSeleccionado),
                                                  inspeccion, observaciones, firmaCliente)
    {
      if clienteSeleccionado == "" || vehiculoSeleccionado == "" {
        return SinSeleccion;
      }
      if !firmaCliente {
        return SinFirma;
      }
      if !Completa(inspeccion) && !continuar {
        return Cancelado;
      }
      var idInspeccion := "INSP-" + uuid;
      var cabecera := Cabecera(idInspeccion, vehiculoSeleccionado, fecha);
      if !cabeceraOk {
        return ErrorCabecera(cabecera);
      }
      var detalles: seq<Detalle> := [];
      var i := 0;
      while i < |PartesVehiculo|
        invariant 0 <= i <= |PartesVehiculo| && |detalles| == i
        invariant forall j :: 0 <= j < i ==>
                    detalles[j] == Detalle(idsDetalle[j], idInspeccion, PartesVehiculo[j],
                                           inspeccion[PartesVehiculo[j]], observaciones[PartesVehiculo[j]])
      {
        var parte := PartesVehiculo[i];
        detalles := detalles + [Detalle(idsDetalle[i], idInspeccion, parte, inspeccion[parte], observaciones[parte])];
        i := i + 1;
      }
      var clienteObj := BuscarCliente(clientes, clienteSeleccionado);
      var vehiculoObj := BuscarVehiculo(vehiculosCliente, vehiculoSeleccionado);
      envio := Registrada(cabecera, detalles, Navegacion(clienteObj, vehiculoObj, inspeccion, observaciones, firmaCliente));
    }
  }
}
