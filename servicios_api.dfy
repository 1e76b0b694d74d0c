/** The services router: get, create, update and delete by `id_servicio`, and the
    seeding of the predefined catalog. */
module ServiciosApi {
  import opened Api

  const NoEncontrado := "Servicio no encontrado"
  const YaExiste := "El servicio ya existe"

  /** `listar_servicios`: every row once, in the order the database returns them. */
  function ListarServicios(db: BaseDeDatos, orden: seq<string>): (r: seq<Servicio>)
    reads db
    requires Enumera(orden, db.servicios)
    ensures |r| == |orden| == |db.servicios|
    ensures forall i :: 0 <= i < |r| ==> r[i] == db.servicios[orden[i]]
  {
    Filas(db.servicios, orden)
  }

  /** `obtener_servicio`: the row, or 404 when the id is not in the table. */
  function ObtenerServicio(db: BaseDeDatos, id: string): (r: Resultado<Servicio>)
    reads db
    ensures r.Ok? <==> id in db.servicios
    ensures r.Ok? ==> r.valor == db.servicios[id]
    ensures r.Fallo? ==> r == Fallo(404, NoEncontrado)
  {
    if id in db.servicios then Ok(db.servicios[id]) else Fallo(404, NoEncontrado)
  }

  /** `crear_servicio`: 400 and no change when the id is taken; otherwise exactly that
      row is added. */
  method CrearServicio(db: BaseDeDatos, s: Servicio) returns (r: Resultado<Servicio>)
    requires db.Valid()
    modifies db
    ensures db.Valid()
    ensures s.id_servicio in old(db.servicios) ==> r == Fallo(400, YaExiste) && Intacta(db)
    ensures s.id_servicio !in old(db.servicios) ==>
              r == Ok(s) && db.servicios == old(db.servicios)[s.id_servicio := s] && FueraIntacta(db, {"servicios"})
  {
    if s.id_servicio in db.servicios {
      return Fallo(400, YaExiste);
    }
    db.servicios := db.servicios[s.id_servicio := s];
    r := Ok(s);
  }

  /** `actualizar_servicio`: 404 when the id is absent. Otherwise every field is
      overwritten, the key included: the row moves to the new id, and if that id
      belongs to another row the commit fails and nothing changes. */
  method ActualizarServicio(db: BaseDeDatos, id: string, datos: Servicio) returns (r: Resultado<Servicio>)
    requires db.Valid()
    modifies db
    ensures db.Valid()
    ensures id !in old(db.servicios) ==> r == Fallo(404, NoEncontrado) && Intacta(db)
    ensures id in old(db.servicios) && datos.id_servicio != id && datos.id_servicio in old(db.servicios) ==>
              r == Fallo(500, ErrorInterno) && Intacta(db)
    ensures id in old(db.servicios) && (datos.id_servicio == id || datos.id_servicio !in old(db.servicios)) ==>
              && r == Ok(datos)
              && db.servicios == (old(db.servicios) - {id})[datos.id_servicio := datos]
              && FueraIntacta(db, {"servicios"})
  {
    if id !in db.servicios {
      return Fallo(404, NoEncontrado);
    }
    if datos.id_servicio != id && datos.id_servicio in db.servicios {
      return Fallo(500, ErrorInterno);
    }
    db.servicios := (db.servicios - {id})[datos.id_servicio := datos];
    r := Ok(datos);
  }

  /** `eliminar_servicio`: 404 when the id is absent; otherwise only that key goes. */
  method EliminarServicio(db: BaseDeDatos, id: string) returns (r: Resultado<string>)
    requires db.Valid()
    modifies db
    ensures db.Valid()
    ensures id !in old(db.servicios) ==> r == Fallo(404, NoEncontrado) && Intacta(db)
    ensures id in old(db.servicios) ==>
              r == Ok("Servicio eliminado") && db.servicios == old(db.servicios) - {id}
              && FueraIntacta(db, {"servicios"})
  {
    if id !in db.servicios {
      return Fallo(404, NoEncontrado);
    }
    db.servicios := db.servicios - {id};
    r := Ok("Servicio eliminado");
  }

  /** The predefined catalog. */
  const Predefinidos: seq<Servicio> := [
    Servicio("srv001", "Cambio de Aceite", 30.0),
    Servicio("srv002", "Alineación y Balanceo", 50.0),
    Servicio("srv003", "Cambio de Filtros", 40.0),
    Servicio("srv004", "Revisión General", 80.0),
    Servicio("srv005", "Cambio de Batería", 100.0),
    Servicio("srv006", "Cambio de Pastillas de Freno", 90.0),
    Servicio("srv007", "Diagnóstico Computarizado", 60.0),
    Servicio("srv008", "Reparación de Suspensión", 120.0)
  ]

  function Ids(ps: seq<Servicio>): set<string>
  {
    set p | p in ps :: p.id_servicio
  }

  /** The table after inserting, in order, each row of `ps` whose id is not yet there. */
  function Sembrar(m: map<string, Servicio>, ps: seq<Servicio>): (r: map<string, Servicio>)
    ensures forall k :: k in m ==> k in r
    ensures forall i :: 0 <= i < |ps| ==> ps[i].id_servicio in r
  {
    if ps == [] then m
    else
      var antes := Sembrar(m, ps[..|ps| - 1]);
      var p := ps[|ps| - 1];
      if p.id_servicio in antes then antes else antes[p.id_servicio := p]
  }

  /** Seeding adds exactly the missing ids and never touches an existing row. */
  lemma {:induction false} SembrarConserva(m: map<string, Servicio>, ps: seq<Servicio>)
    ensures forall k :: k in Sembrar(m, ps) <==> k in m || k in Ids(ps)
    ensures forall k :: k in m ==> Sembrar(m, ps)[k] == m[k]
  {
    if ps != [] {
      var q := ps[..|ps| - 1];
      SembrarConserva(m, q);
      assert ps == q + [ps[|ps| - 1]];
      assert Ids(ps) == Ids(q) + {ps[|ps| - 1].id_servicio};
    }
  }

  /** A seeded id holds the first row of `ps` with that id, unless the table had it. */
  lemma {:induction false} SembrarNuevo(m: map<string, Servicio>, ps: seq<Servicio>, i: int)
    requires 0 <= i < |ps| && ps[i].id_servicio !in m
    requires forall j :: 0 <= j < i ==> ps[j].id_servicio != ps[i].id_servicio
    ensures Sembrar(m, ps)[ps[i].id_servicio] == ps[i]
  {
    var q := ps[..|ps| - 1];
    if i == |ps| - 1 {
      SembrarConserva(m, q);
      forall p | p in q
        ensures p.id_servicio != ps[i].id_servicio
      {
        var j :| 0 <= j < |q| && q[j] == p;
        assert ps[j] == p;
      }
    } else {
      SembrarNuevo(m, q, i);
      SembrarConserva(m, q);
      assert ps[i] in q;
    }
  }

  /** Seeding keeps every row under its own key. */
  lemma {:induction false} SembrarValido(m: map<string, Servicio>, ps: seq<Servicio>)
    requires forall k :: k in m ==> m[k].id_servicio == k
    ensures forall k :: k in Sembrar(m, ps) ==> Sembrar(m, ps)[k].id_servicio == k
  {
    if ps != [] {
      SembrarValido(m, ps[..|ps| - 1]);
    }
  }

  /** When every id of `ps` is already there, seeding changes nothing. */
  lemma {:induction false} SembrarCompleto(m: map<string, Servicio>, ps: seq<Servicio>)
    requires forall p :: p in ps ==> p.id_servicio in m
    ensures Sembrar(m, ps) == m
  {
    if ps != [] {
      var q := ps[..|ps| - 1];
      assert forall p :: p in q ==> p in ps;
      SembrarCompleto(m, q);
      assert ps[|ps| - 1] in ps;
    }
  }

  /** Seeding twice is seeding once. */
  lemma SembrarIdempotente(m: map<string, Servicio>, ps: seq<Servicio>)
    ensures Sembrar(Sembrar(m, ps), ps) == Sembrar(m, ps)
  {
    SembrarConserva(m, ps);
    forall p | p in ps
      ensures p.id_servicio in Sembrar(m, ps)
    {
      assert p.id_servicio in Ids(ps);
    }
    SembrarCompleto(Sembrar(m, ps), ps);
  }

  /** After seeding, srv001 to srv008 are all in the table, and each one that was not
      there before holds its predefined row. */
  lemma SembradoPredefinidos(m: map<string, Servicio>)
    ensures forall i :: 0 <= i < |Predefinidos| ==> Predefinidos[i].id_servicio in Sembrar(m, Predefinidos)
    ensures forall i :: 0 <= i < |Predefinidos| && Predefinidos[i].id_servicio !in m ==>
              Sembrar(m, Predefinidos)[Predefinidos[i].id_servicio] == Predefinidos[i]
    ensures forall k :: k in m ==> Sembrar(m, Predefinidos)[k] == m[k]
  {
    SembrarConserva(m, Predefinidos);
    forall i | 0 <= i < |Predefinidos|
      ensures Predefinidos[i].id_servicio in Ids(Predefinidos)
    {
      assert Predefinidos[i] in Predefinidos;
    }
    forall i | 0 <= i < |Predefinidos| && Predefinidos[i].id_servicio !in m
      ensures Sembrar(m, Predefinidos)[Predefinidos[i].id_servicio] == Predefinidos[i]
    {
      SembrarNuevo(m, Predefinidos, i);
    }
  }

  /** `cargar_servicios_predefinidos`: the loop inserts each predefined row whose id is
      missing; no other table changes. */
  method CargarServiciosPredefinidos(db: BaseDeDatos) returns (r: Resultado<string>)
    requires db.Valid()
    modifies db
    ensures db.Valid()
    ensures r == Ok("Servicios cargados exitosamente")
    ensures db.servicios == Sembrar(old(db.servicios), Predefinidos)
    ensures FueraIntacta(db, {"servicios"})
  {
    var i := 0;
    while i < |Predefinidos|
      invariant 0 <= i <= |Predefinidos|
      invariant db.servicios == Sembrar(old(db.servicios), Predefinidos[..i])
      invariant FueraIntacta(db, {"servicios"})
    {
      assert Predefinidos[..i + 1][..i] == Predefinidos[..i];
      var s := Predefinidos[i];
      if s.id_servicio !in db.servicios {
        db.servicios := db.servicios[s.id_servicio := s];
      }
      i := i + 1;
    }
    assert Predefinidos[..i] == Predefinidos;
    SembrarValido(old(db.servicios), Predefinidos);
    r := Ok("Servicios cargados exitosamente");
  }
}
