/** The backend's tables and what a handler answers. Every handler receives the same
    database session; here that is one object holding the five tables, each a map from
    the primary key to the row. */
module Api {
  import opened Wrappers
  import opened Seqs

  /** A handler's answer: the response body, or an `HTTPException` (400, 404), or the
      server error (500) that a database constraint violation at commit ends in. */
  datatype Resultado<T> = Ok(valor: T) | Fallo(status: int, detail: string)

  const ErrorInterno := "Internal Server Error"

  datatype Servicio = Servicio(id_servicio: string, nombre: string, precio: real)

  datatype Diagnostico = Diagnostico(id_diagnostico: string, placa: string, fecha: string)

  datatype DetalleDiagnostico = DetalleDiagnostico(id_detalle: string, id_diagnostico: string,
                                                   componente: string, valor: string)

  datatype Vehiculo = Vehiculo(placa: string, marca: string, modelo: string, cliente_id: string)

  /** `Literal["Activo", "Inactivo"]`. */
  datatype Estado = Activo | Inactivo

  datatype Cliente = Cliente(id: string, nombre: string, tecnomecanica: string,
                             email: Option<string>, telefono: Option<string>,
                             direccion: Option<string>, estado: Estado)

  class BaseDeDatos {
    var servicios: map<string, Servicio>
    var diagnosticos: map<string, Diagnostico>
    var detalles: map<string, DetalleDiagnostico>
    var vehiculos: map<string, Vehiculo>
    var clientes: map<string, Cliente>

    /** Each row sits under its own primary key. */
    ghost predicate Valid()
      reads this
    {
      && (forall k :: k in servicios ==> servicios[k].id_servicio == k)
      && (forall k :: k in diagnosticos ==> diagnosticos[k].id_diagnostico == k)
      && (forall k :: k in detalles ==> detalles[k].id_detalle == k)
      && (forall k :: k in vehiculos ==> vehiculos[k].placa == k)
      && (forall k :: k in clientes ==> clientes[k].id == k)
    }

    /** An empty database. */
    constructor()
      ensures Valid()
      ensures servicios == map[] && diagnosticos == map[] && detalles == map[]
      ensures vehiculos == map[] && clientes == map[]
    {
      servicios, diagnosticos, detalles, vehiculos, clientes := map[], map[], map[], map[], map[];
    }
  }

  /** Nothing in the database changed. */
  twostate predicate Intacta(db: BaseDeDatos)
    reads db
  {
    && db.servicios == old(db.servicios) && db.diagnosticos == old(db.diagnosticos)
    && db.detalles == old(db.detalles) && db.vehiculos == old(db.vehiculos)
    && db.clientes == old(db.clientes)
  }

  /** Only the tables named in `cambian` may differ from before. */
  twostate predicate FueraIntacta(db: BaseDeDatos, cambian: set<string>)
    reads db
  {
    && ("servicios" !in cambian ==> db.servicios == old(db.servicios))
    && ("diagnosticos" !in cambian ==> db.diagnosticos == old(db.diagnosticos))
    && ("detalles" !in cambian ==> db.detalles == old(db.detalles))
    && ("vehiculos" !in cambian ==> db.vehiculos == old(db.vehiculos))
    && ("clientes" !in cambian ==> db.clientes == old(db.clientes))
  }

  /** `orden` lists every key of `m` once: the order `query(...).all()` returns the rows
      in, which SQL leaves to the database. */
  ghost predicate Enumera<R>(orden: seq<string>, m: map<string, R>)
  {
    Distinct(orden) && (forall k :: k in orden <==> k in m)
  }

  /** The rows of `m` in the order `orden` lists their keys. */
  function Filas<R>(m: map<string, R>, orden: seq<string>): (r: seq<R>)
    requires Enumera(orden, m)
    ensures |r| == |orden| && |r| == |m|
    ensures forall i :: 0 <= i < |r| ==> r[i] == m[orden[i]]
  {
    DistinctCard(orden, m.Keys);
    seq(|orden|, i requires 0 <= i < |orden| => m[orden[i]])
  }

  /** The listed rows are exactly the table's rows. */
  lemma FilasValores<R>(m: map<string, R>, orden: seq<string>)
    requires Enumera(orden, m)
    ensures forall v :: v in Filas(m, orden) <==> v in m.Values
  {
    var fs := Filas(m, orden);
    forall v | v in m.Values
      ensures v in fs
    {
      var k :| k in m && m[k] == v;
      var j :| 0 <= j < |orden| && orden[j] == k;
      assert fs[j] == v;
    }
  }

  /** A list without repetitions of exactly the elements of a set is as long as that
      set is large. */
  lemma {:induction false} DistinctCard(s: seq<string>, keys: set<string>)
    requires Distinct(s) && forall k :: k in s <==> k in keys
    ensures |s| == |keys|
  {
    if s != [] {
      var x := s[|s| - 1];
      var t := s[..|s| - 1];
      assert Distinct(t);
      assert x !in t;
      forall k ensures k in t <==> k in keys - {x} {
        if k in t { var j :| 0 <= j < |t| && t[j] == k; assert s[j] == k; }
        if k in keys - {x} { var j :| 0 <= j < |s| && s[j] == k; assert j != |s| - 1; assert t[j] == k; }
      }
      DistinctCard(t, keys - {x});
    } else {
      assert forall k :: k !in keys;
      assert keys == {};
    }
  }
}
