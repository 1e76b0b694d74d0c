/** The vehicle history page: the joined vehicle listing from the backend, searched by
    plate or owner name, and the rows of the exported table. */
module Historial {
  import opened Wrappers
  import opened Text
  import opened Seqs

  /** A row of `GET /vehiculos`; the page also copes with a missing `cliente_nombre`. */
  datatype VehiculoListado = VehiculoListado(placa: string, marca: string, modelo: string,
                                             cliente_id: string, cliente_nombre: Option<string>)

  /** The plate, or else the owner's name, contains the search, all lower-cased; a
      missing owner name cannot match. */
  predicate Coincide(v: VehiculoListado, filtro: string)
  {
    || Contains(Lower(v.placa), Lower(filtro))
    || (v.cliente_nombre.Some? && Contains(Lower(v.cliente_nombre.value), Lower(filtro)))
  }

  /** `vehiculosFiltrados`. */
  function Filtrados(vehiculos: seq<VehiculoListado>, filtro: string): (r: seq<VehiculoListado>)
    ensures IsSublist(r, vehiculos)
    ensures forall v :: v in r <==> v in vehiculos && Coincide(v, filtro)
  {
    FilterIsSublist(vehiculos, (v: VehiculoListado) => Coincide(v, filtro));
    Filter(vehiculos, (v: VehiculoListado) => Coincide(v, filtro))
  }

  /** An empty search keeps every vehicle. */
  lemma FiltroVacio(vehiculos: seq<VehiculoListado>)
    ensures Filtrados(vehiculos, "") == vehiculos
  {
    var p := (v: VehiculoListado) => Coincide(v, "");
    forall i | 0 <= i < |vehiculos|
      ensures p(vehiculos[i])
    {
      ContainsEmpty(Lower(vehiculos[i].placa));
    }
    FilterAll(vehiculos, p);
  }

  /** A vehicle without an owner name is found by its plate or not at all. */
  lemma SinNombreSoloPlaca(v: VehiculoListado, filtro: string)
    requires v.cliente_nombre.None?
    ensures Coincide(v, filtro) <==> Contains(Lower(v.placa), Lower(filtro))
  {
  }

  /** `v.cliente_nombre || "Sin nombre"`. */
  function NombreMostrado(v: VehiculoListado): (n: string)
    ensures n != ""
    ensures v.cliente_nombre.Some? && v.cliente_nombre.value != "" ==> n == v.cliente_nombre.value
  {
    if v.cliente_nombre.Some? && v.cliente_nombre.value != "" then v.cliente_nombre.value else "Sin nombre"
  }

  /** One exported row: plate, owner, make, model. */
  function Fila(v: VehiculoListado): seq<string>
  {
    [v.placa, NombreMostrado(v), v.marca, v.modelo]
  }

  /** `exportarPDF`'s body rows: one per listed vehicle, in the listed order. */
  function FilasPdf(vehiculos: seq<VehiculoListado>, filtro: string): (rows: seq<seq<string>>)
    ensures |rows| == |Filtrados(vehiculos, filtro)|
    ensures forall i :: 0 <= i < |rows| ==>
              var v := Filtrados(vehiculos, filtro)[i];
              |rows[i]| == 4 && rows[i][0] == v.placa && rows[i][2] == v.marca && rows[i][3] == v.modelo
              && rows[i][1] == NombreMostrado(v)
              && (rows[i][1] == "Sin nombre" <==> v.cliente_nombre.None? || v.cliente_nombre.value in {"", "Sin nombre"})
  {
    Map(Fila, Filtrados(vehiculos, filtro))
  }
}
