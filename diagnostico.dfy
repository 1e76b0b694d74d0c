/** The vehicle diagnostic page: the state the selectors edit, the rule evaluator that
    turns it into recommendation messages, and the eleven detail rows sent when the
    diagnostic is saved. */
module Diagnostico {
  import opened Wrappers
  import opened Text
  import opened Seqs

  /** The four wheels, in the order the state object declares them. */
  datatype Posicion = FrontalIzq | FrontalDer | TraseraIzq | TraseraDer

  const Posiciones: seq<Posicion> := [FrontalIzq, FrontalDer, TraseraIzq, TraseraDer]

  function Indice(p: Posicion): nat
  {
    match p
    case FrontalIzq => 0
    case FrontalDer => 1
    case TraseraIzq => 2
    case TraseraDer => 3
  }

  function Eje(p: Posicion): string
  {
    if p == FrontalIzq || p == FrontalDer then "frontal" else "trasera"
  }

  function Lado(p: Posicion): string
  {
    if p == FrontalIzq || p == TraseraIzq then "Izq" else "Der"
  }

  /** The object key of a wheel: "frontalIzq", "frontalDer", "traseraIzq", "traseraDer". */
  function Clave(p: Posicion): string
  {
    Eje(p) + Lado(p)
  }

  /** How a message names a wheel: "frontal Izq", "frontal Der", "trasera Izq",
      "trasera Der" — its key with a space before each capital, as `NombreRueda` shows. */
  function Nombre(p: Posicion): (n: string)
    ensures |n| == 11
  {
    Eje(p) + " " + Lado(p)
  }

  /** One value per wheel, as the `presionNeumaticos` and `balanceo` objects hold them. */
  datatype PorRueda<T> = PorRueda(frontalIzq: T, frontalDer: T, traseraIzq: T, traseraDer: T)
  {
    function Get(p: Posicion): T
    {
      match p
      case FrontalIzq => frontalIzq
      case FrontalDer => frontalDer
      case TraseraIzq => traseraIzq
      case TraseraDer => traseraDer
    }

    /** `{...this, [p]: v}`: only the value at `p` changes. */
    function Set(p: Posicion, v: T): (r: PorRueda<T>)
      ensures r.Get(p) == v
      ensures forall q :: q != p ==> r.Get(q) == Get(q)
    {
      match p
      case FrontalIzq => this.(frontalIzq := v)
      case FrontalDer => this.(frontalDer := v)
      case TraseraIzq => this.(traseraIzq := v)
      case TraseraDer => this.(traseraDer := v)
    }
  }

  datatype Estado = Estado(motor: string, bateria: string, frenos: string,
                           presionNeumaticos: PorRueda<string>, balanceo: PorRueda<real>)

  /** The state the page starts from. */
  const Inicial: Estado := Estado("Normal", "Normal", "Normal",
                                  PorRueda("Normal", "Normal", "Normal", "Normal"),
                                  PorRueda(0.5, -0.3, 0.7, -0.4))

  /** The scalar components `handleChange` addresses. */
  datatype Componente = Motor | Bateria | Frenos

  function Abs(x: real): real { if x < 0.0 then -x else x }

  /** What a message recommends; `Texto` renders it. */
  datatype Recomendacion =
    | InflarNeumatico(pos: Posicion)
    | Alinear(pos: Posicion)
    | RevisarMotor
    | CargarBateria
    | CambiarPastillas
    | AdvertenciaFrenos

  const PrefijoInflar := "Se recomienda inflar el neumático "
  const SufijoInflar := " a 30 PSI."
  const PrefijoAlinear := "Se recomienda realizar una alineación en las ruedas "
  const SufijoAlinear := "."
  const MensajeMotor := "Se recomienda revisar el motor."
  const MensajeBateria := "Cargar o reemplazar batería."
  const MensajePastillas := "Inspeccionar y cambiar pastillas de freno."
  const MensajeAdvertencia :=
    "\U{26A0}\U{FE0F} En la inspección se recomendó cambiar frenos. Verifique el diagnóstico."

  function Texto(r: Recomendacion): string
  {
    match r
    case InflarNeumatico(p) => PrefijoInflar + Nombre(p) + SufijoInflar
    case Alinear(p) => PrefijoAlinear + Nombre(p) + SufijoAlinear
    case RevisarMotor => MensajeMotor
    case CargarBateria => MensajeBateria
    case CambiarPastillas => MensajePastillas
    case AdvertenciaFrenos => MensajeAdvertencia
  }

  /** `if (c) recomendaciones.push(x)`. */
  function Anadir(rs: seq<Recomendacion>, c: bool, x: Recomendacion): seq<Recomendacion>
  {
    if c then rs + [x] else rs
  }

  /** The wheels among `ps` whose pressure is "Baja", in the order of `ps`. */
  function Inflados(presion: PorRueda<string>, ps: seq<Posicion>): seq<Recomendacion>
  {
    if ps == [] then []
    else
      var p := ps[|ps| - 1];
      Anadir(Inflados(presion, ps[..|ps| - 1]), presion.Get(p) == "Baja", InflarNeumatico(p))
  }

  /** The wheels among `ps` whose camber exceeds one degree either way, in the order of `ps`,
      after the messages `antes`. */
  function Alineaciones(antes: seq<Recomendacion>, balanceo: PorRueda<real>, ps: seq<Posicion>): seq<Recomendacion>
  {
    if ps == [] then antes
    else
      var p := ps[|ps| - 1];
      Anadir(Alineaciones(antes, balanceo, ps[..|ps| - 1]), Abs(balanceo.Get(p)) > 1.0, Alinear(p))
  }

  /** `inspeccionPrev?.["Frenos"] === "cambiar"`. */
  predicate InspeccionPideFrenos(previa: Option<map<string, string>>)
  {
    previa.Some? && "Frenos" in previa.value && previa.value["Frenos"] == "cambiar"
  }

  /** The rules of `getRecomendaciones`: tyres, then alignment, then motor, battery and
      brakes, then the warning that contradicts a prior inspection. */
  function Recomendaciones(e: Estado, previa: Option<map<string, string>>): seq<Recomendacion>
  {
    var ruedas := Alineaciones(Inflados(e.presionNeumaticos, Posiciones), e.balanceo, Posiciones);
    var motor := Anadir(ruedas, e.motor == "Falla", RevisarMotor);
    var bateria := Anadir(motor, e.bateria == "Baja", CargarBateria);
    var frenos := Anadir(bateria, e.frenos == "Desgastados", CambiarPastillas);
    Anadir(frenos, InspeccionPideFrenos(previa) && e.frenos == "Normal", AdvertenciaFrenos)
  }

  // ---------------------------------------------------------------- message rendering

  lemma {:induction false} SpaceBeforeCapitalsAppend(a: string, b: string)
    ensures SpaceBeforeCapitals(a + b) == SpaceBeforeCapitals(a) + SpaceBeforeCapitals(b)
  {
    if a == [] {
      assert a + b == b;
    } else {
      assert (a + b)[1..] == a[1..] + b;
      SpaceBeforeCapitalsAppend(a[1..], b);
    }
  }

  lemma {:induction false} SpaceBeforeCapitalsNone(s: string)
    requires forall i :: 0 <= i < |s| ==> !('A' <= s[i] <= 'Z')
    ensures SpaceBeforeCapitals(s) == s
  {
    if s != [] { SpaceBeforeCapitalsNone(s[1..]); }
  }

  /** A lower-case word followed by a capitalised one gets a space between them. */
  lemma {:induction false} SpaceBeforeCapitalsTwoWords(a: string, b: string)
    requires forall i :: 0 <= i < |a| ==> !('A' <= a[i] <= 'Z')
    requires |b| > 0 && 'A' <= b[0] <= 'Z'
    requires forall i :: 1 <= i < |b| ==> !('A' <= b[i] <= 'Z')
    ensures SpaceBeforeCapitals(a + b) == a + " " + b
  {
    SpaceBeforeCapitalsAppend(a, b);
    SpaceBeforeCapitalsNone(a);
    SpaceBeforeCapitalsNone(b[1..]);
    assert [b[0]] + b[1..] == b;
  }

  /** The name in a message is `posicion.replace(/([A-Z])/g, " $1")` of the wheel's key. */
  lemma NombreRueda(p: Posicion)
    ensures Nombre(p) == SpaceBeforeCapitals(Clave(p))
  {
    SpaceBeforeCapitalsTwoWords(Eje(p), Lado(p));
  }

  /** Different wheels have different names. */
  lemma NombreInyectivo(p: Posicion, q: Posicion)
    ensures Nombre(p) == Nombre(q) ==> p == q
  {
    if Nombre(p) == Nombre(q) {
      assert Nombre(p)[0] == Nombre(q)[0] && Nombre(p)[8] == Nombre(q)[8];
    }
  }

  /** The fixed messages are pairwise different (their lengths already differ). */
  lemma MensajesFijosDistintos()
    ensures MensajeMotor != MensajeBateria && MensajeMotor != MensajePastillas
    ensures MensajeMotor != MensajeAdvertencia && MensajeBateria != MensajePastillas
    ensures MensajeBateria != MensajeAdvertencia && MensajePastillas != MensajeAdvertencia
  {
  }

  /** A message about a wheel whose name has eleven characters is told apart from
      every other message by its length, and from a message of the same kind by the
      wheel's name. */
  lemma MensajesDeRueda(n: string, m: string)
    requires |n| == 11 && |m| == 11
    ensures PrefijoInflar + n + SufijoInflar == PrefijoInflar + m + SufijoInflar ==> n == m
    ensures PrefijoAlinear + n + SufijoAlinear == PrefijoAlinear + m + SufijoAlinear ==> n == m
    ensures PrefijoInflar + n + SufijoInflar != PrefijoAlinear + m + SufijoAlinear
    ensures PrefijoInflar + n + SufijoInflar !in [MensajeMotor, MensajeBateria, MensajePastillas, MensajeAdvertencia]
    ensures PrefijoAlinear + n + SufijoAlinear !in [MensajeMotor, MensajeBateria, MensajePastillas, MensajeAdvertencia]
  {
    var i, a := PrefijoInflar + n + SufijoInflar, PrefijoAlinear + n + SufijoAlinear;
    var i', a' := PrefijoInflar + m + SufijoInflar, PrefijoAlinear + m + SufijoAlinear;
    if i == i' {
      assert n == i[|PrefijoInflar|..|PrefijoInflar| + 11] == i'[|PrefijoInflar|..|PrefijoInflar| + 11] == m;
    }
    if a == a' {
      assert n == a[|PrefijoAlinear|..|PrefijoAlinear| + 11] == a'[|PrefijoAlinear|..|PrefijoAlinear| + 11] == m;
    }
  }

  /** Different recommendations are different messages. */
  lemma TextoInyectivo(a: Recomendacion, b: Recomendacion)
    ensures Texto(a) == Texto(b) ==> a == b
  {
    MensajesFijosDistintos();
    var n := if a.InflarNeumatico? || a.Alinear? then Nombre(a.pos) else "frontal Izq";
    var m := if b.InflarNeumatico? || b.Alinear? then Nombre(b.pos) else "frontal Izq";
    MensajesDeRueda(n, m);
    MensajesDeRueda(m, n);
    if (a.InflarNeumatico? || a.Alinear?) && (b.InflarNeumatico? || b.Alinear?) {
      NombreInyectivo(a.pos, b.pos);
    }
  }

  /** A message is among the rendered ones exactly when its recommendation is. */
  lemma TextosMiembro(rs: seq<Recomendacion>, x: Recomendacion)
    ensures Texto(x) in Map(Texto, rs) <==> x in rs
  {
    var ts := Map(Texto, rs);
    if Texto(x) in ts {
      var k :| 0 <= k < |ts| && ts[k] == Texto(x);
      TextoInyectivo(rs[k], x);
    }
  }

  // ---------------------------------------------------------------- the rules

  /** Where a recommendation stands in the fixed order of the rules. */
  function Rango(r: Recomendacion): nat
  {
    match r
    case InflarNeumatico(p) => Indice(p)
    case Alinear(p) => 4 + Indice(p)
    case RevisarMotor => 8
    case CargarBateria => 9
    case CambiarPastillas => 10
    case AdvertenciaFrenos => 11
  }

  predicate Creciente(rs: seq<Recomendacion>)
  {
    forall i, j :: 0 <= i < j < |rs| ==> Rango(rs[i]) < Rango(rs[j])
  }

  /** In rule order, and every message before rank `k`. */
  predicate Ordenada(rs: seq<Recomendacion>, k: nat)
  {
    Creciente(rs) && forall i :: 0 <= i < |rs| ==> Rango(rs[i]) < k
  }

  lemma AnadirOrdenada(rs: seq<Recomendacion>, c: bool, x: Recomendacion)
    requires Ordenada(rs, Rango(x))
    ensures Ordenada(Anadir(rs, c, x), Rango(x) + 1)
  {
  }

  lemma PosicionesCompletas()
    ensures Posiciones[..4] == Posiciones
  {
  }

  lemma {:induction false} InfladosSpec(presion: PorRueda<string>, n: nat)
    requires n <= 4
    ensures forall x :: x in Inflados(presion, Posiciones[..n]) <==>
              x.InflarNeumatico? && Indice(x.pos) < n && presion.Get(x.pos) == "Baja"
    ensures Ordenada(Inflados(presion, Posiciones[..n]), n)
  {
    if n > 0 {
      var ps := Posiciones[..n];
      assert ps[..n - 1] == Posiciones[..n - 1];
      assert Indice(ps[n - 1]) == n - 1;
      InfladosSpec(presion, n - 1);
      AnadirOrdenada(Inflados(presion, Posiciones[..n - 1]), presion.Get(ps[n - 1]) == "Baja",
                     InflarNeumatico(ps[n - 1]));
      assert forall p :: Indice(p) < n ==> Indice(p) < n - 1 || p == ps[n - 1];
    }
  }

  lemma {:induction false} AlineacionesSpec(antes: seq<Recomendacion>, balanceo: PorRueda<real>, n: nat)
    requires n <= 4 && Ordenada(antes, 4)
    ensures forall x :: x in Alineaciones(antes, balanceo, Posiciones[..n]) <==>
              x in antes || (x.Alinear? && Indice(x.pos) < n && Abs(balanceo.Get(x.pos)) > 1.0)
    ensures Ordenada(Alineaciones(antes, balanceo, Posiciones[..n]), 4 + n)
  {
    if n > 0 {
      var ps := Posiciones[..n];
      assert ps[..n - 1] == Posiciones[..n - 1];
      assert Indice(ps[n - 1]) == n - 1;
      AlineacionesSpec(antes, balanceo, n - 1);
      AnadirOrdenada(Alineaciones(antes, balanceo, Posiciones[..n - 1]), Abs(balanceo.Get(ps[n - 1])) > 1.0,
                     Alinear(ps[n - 1]));
      assert forall p :: Indice(p) < n ==> Indice(p) < n - 1 || p == ps[n - 1];
    } else {
      assert forall i :: 0 <= i < |antes| ==> Rango(antes[i]) < 4 + n;
    }
  }

  /** The wheel messages: which ones there are and that they come in rule order. */
  lemma RuedasSpec(e: Estado)
    ensures forall x :: x in Alineaciones(Inflados(e.presionNeumaticos, Posiciones), e.balanceo, Posiciones) <==>
              (x.InflarNeumatico? && e.presionNeumaticos.Get(x.pos) == "Baja")
              || (x.Alinear? && Abs(e.balanceo.Get(x.pos)) > 1.0)
    ensures Ordenada(Alineaciones(Inflados(e.presionNeumaticos, Posiciones), e.balanceo, Posiciones), 8)
  {
    PosicionesCompletas();
    InfladosSpec(e.presionNeumaticos, 4);
    AlineacionesSpec(Inflados(e.presionNeumaticos, Posiciones), e.balanceo, 4);
    assert forall p :: Indice(p) < 4;
  }

  /** The wheel messages come in rule order. */
  lemma RuedasOrdenadas(e: Estado)
    ensures Ordenada(Alineaciones(Inflados(e.presionNeumaticos, Posiciones), e.balanceo, Posiciones), 8)
  {
    RuedasSpec(e);
  }

  /** A tyre inflation message for exactly the tyres whose pressure is "Baja". */
  lemma RecomendacionesInflar(e: Estado, previa: Option<map<string, string>>, p: Posicion)
    ensures InflarNeumatico(p) in Recomendaciones(e, previa) <==> e.presionNeumaticos.Get(p) == "Baja"
  {
    RuedasSpec(e);
  }

  /** An alignment message for exactly the wheels whose camber exceeds 1.0 either way. */
  lemma RecomendacionesAlinear(e: Estado, previa: Option<map<string, string>>, p: Posicion)
    ensures Alinear(p) in Recomendaciones(e, previa) <==> Abs(e.balanceo.Get(p)) > 1.0
  {
    RuedasSpec(e);
  }

  /** The motor, battery and brake-pad messages exactly for "Falla", "Baja" and
      "Desgastados"; the warning exactly when the prior inspection asks to change the
      brakes and the brakes were found "Normal". */
  lemma RecomendacionesComponentes(e: Estado, previa: Option<map<string, string>>)
    ensures RevisarMotor in Recomendaciones(e, previa) <==> e.motor == "Falla"
    ensures CargarBateria in Recomendaciones(e, previa) <==> e.bateria == "Baja"
    ensures CambiarPastillas in Recomendaciones(e, previa) <==> e.frenos == "Desgastados"
    ensures AdvertenciaFrenos in Recomendaciones(e, previa) <==>
              InspeccionPideFrenos(previa) && e.frenos == "Normal"
  {
    RuedasSpec(e);
  }

  /** The messages come in the fixed order — tyres by position, then alignment by
      position, then motor, battery, brake pads and the warning — so none repeats. */
  lemma RecomendacionesOrdenadas(e: Estado, previa: Option<map<string, string>>)
    ensures Creciente(Recomendaciones(e, previa))
    ensures forall i, j :: 0 <= i < j < |Recomendaciones(e, previa)| ==>
              Recomendaciones(e, previa)[i] != Recomendaciones(e, previa)[j]
  {
    RuedasOrdenadas(e);
    var ruedas := Alineaciones(Inflados(e.presionNeumaticos, Posiciones), e.balanceo, Posiciones);
    var motor := Anadir(ruedas, e.motor == "Falla", RevisarMotor);
    var bateria := Anadir(motor, e.bateria == "Baja", CargarBateria);
    var frenos := Anadir(bateria, e.frenos == "Desgastados", CambiarPastillas);
    AnadirOrdenada(ruedas, e.motor == "Falla", RevisarMotor);
    AnadirOrdenada(motor, e.bateria == "Baja", CargarBateria);
    AnadirOrdenada(bateria, e.frenos == "Desgastados", CambiarPastillas);
    AnadirOrdenada(frenos, InspeccionPideFrenos(previa) && e.frenos == "Normal", AdvertenciaFrenos);
    var rs := Recomendaciones(e, previa);
    assert Creciente(rs);
    forall i, j | 0 <= i < j < |rs|
      ensures rs[i] != rs[j]
    {
      assert Rango(rs[i]) < Rango(rs[j]);
    }
  }

  /** An angle of exactly one degree either way is within tolerance. */
  lemma AlineacionLimite(e: Estado, previa: Option<map<string, string>>, p: Posicion)
    requires e.balanceo.Get(p) == 1.0 || e.balanceo.Get(p) == -1.0
    ensures Alinear(p) !in Recomendaciones(e, previa)
  {
    RecomendacionesAlinear(e, previa, p);
  }

  /** Without a prior inspection the warning never appears. */
  lemma SinInspeccionSinAdvertencia(e: Estado)
    ensures AdvertenciaFrenos !in Recomendaciones(e, None)
  {
    RecomendacionesComponentes(e, None);
  }

  /** With every tyre, wheel and component in order, the only possible message is the
      warning about a prior inspection that asked to change the brakes. */
  lemma SinProblemas(e: Estado, previa: Option<map<string, string>>)
    requires e.motor == "Normal" && e.bateria == "Normal" && e.frenos == "Normal"
    requires forall p :: e.presionNeumaticos.Get(p) != "Baja" && Abs(e.balanceo.Get(p)) <= 1.0
    ensures Recomendaciones(e, previa) == if InspeccionPideFrenos(previa) then [AdvertenciaFrenos] else []
  {
    RuedasSpec(e);
    var ruedas := Alineaciones(Inflados(e.presionNeumaticos, Posiciones), e.balanceo, Posiciones);
    PrimeroEsMiembro(ruedas);
    assert ruedas == [];
  }

  lemma PrimeroEsMiembro<T>(s: seq<T>)
    ensures |s| > 0 ==> s[0] in s
  {
  }

  /** The page starts with nothing to recommend, unless the prior inspection asked to
      change the brakes: the initial brakes are "Normal", so the warning shows at once. */
  lemma InicialSinRecomendaciones(previa: Option<map<string, string>>)
    ensures Recomendaciones(Inicial, previa) == [] <==> !InspeccionPideFrenos(previa)
    ensures Recomendaciones(Inicial, None) == []
  {
    assert forall p :: Inicial.presionNeumaticos.Get(p) != "Baja" && Abs(Inicial.balanceo.Get(p)) <= 1.0;
    SinProblemas(Inicial, previa);
    SinProblemas(Inicial, None);
  }

  // ---------------------------------------------------------------- detail rows

  /** A detail row as the page posts it: `valor` is a number here; the backend accepts
      a string or a number and stores it as text. */
  datatype Detalle = Detalle(id_detalle: string, id_diagnostico: string, componente: string, valor: real)

  function Bandera(b: bool): real { if b then 1.0 else 0.0 }

  function ValorPresion(presion: string): real { if presion == "Baja" then 25.0 else 30.0 }

  /** The rows of `guardarDiagnostico`: motor, bateria and frenos, then one pressure and one
      alignment row per wheel. `ids` are the eleven fresh row ids, in the order they are drawn. */
  function Detalles(idDiagnostico: string, ids: seq<string>, e: Estado): (r: seq<Detalle>)
    requires |ids| == 11
    ensures |r| == 11
    ensures forall k :: 0 <= k < 11 ==> r[k].id_detalle == ids[k] && r[k].id_diagnostico == idDiagnostico
    ensures r[0].componente == "motor" && (r[0].valor == 1.0 <==> e.motor == "Falla")
    ensures r[1].componente == "bateria" && (r[1].valor == 1.0 <==> e.bateria == "Baja")
    ensures r[2].componente == "frenos" && (r[2].valor == 1.0 <==> e.frenos == "Desgastados")
    ensures forall k :: 0 <= k < 3 ==> r[k].valor == 0.0 || r[k].valor == 1.0
    ensures forall k :: 0 <= k < 4 ==>
              r[3 + k].componente == "presion_" + Clave(Posiciones[k])
              && (r[3 + k].valor == 25.0 <==> e.presionNeumaticos.Get(Posiciones[k]) == "Baja")
              && (r[3 + k].valor == 30.0 <==> e.presionNeumaticos.Get(Posiciones[k]) != "Baja")
    ensures forall k :: 0 <= k < 4 ==>
              r[7 + k].componente == "alineacion_" + Clave(Posiciones[k])
              && r[7 + k].valor == e.balanceo.Get(Posiciones[k])
  {
    var fijas := [ Detalle(ids[0], idDiagnostico, "motor", Bandera(e.motor == "Falla")),
                   Detalle(ids[1], idDiagnostico, "bateria", Bandera(e.bateria == "Baja")),
                   Detalle(ids[2], idDiagnostico, "frenos", Bandera(e.frenos == "Desgastados")) ];
    var presiones := FilasPresion(idDiagnostico, ids, e.presionNeumaticos);
    var alineaciones := FilasAlineacion(idDiagnostico, ids, e.balanceo);
    var r := fijas + presiones + alineaciones;
    assert forall k :: 0 <= k < 3 ==> r[k] == fijas[k];
    assert forall k :: 0 <= k < 4 ==> r[3 + k] == presiones[k];
    assert forall k :: 0 <= k < 4 ==> r[7 + k] == alineaciones[k];
    r
  }

  /** One pressure row per wheel, in wheel order, with the ids drawn fourth to seventh. */
  function FilasPresion(idDiagnostico: string, ids: seq<string>, presion: PorRueda<string>): (r: seq<Detalle>)
    requires |ids| == 11
    ensures |r| == 4
    ensures forall k :: 0 <= k < 4 ==>
              r[k] == Detalle(ids[3 + k], idDiagnostico, "presion_" + Clave(Posiciones[k]),
                              ValorPresion(presion.Get(Posiciones[k])))
  {
    seq(4, k requires 0 <= k < 4 =>
      Detalle(ids[3 + k], idDiagnostico, "presion_" + Clave(Posiciones[k]), ValorPresion(presion.Get(Posiciones[k]))))
  }

  /** One alignment row per wheel, in wheel order, holding the measured angle, with the
      last four ids. */
  function FilasAlineacion(idDiagnostico: string, ids: seq<string>, balanceo: PorRueda<real>): (r: seq<Detalle>)
    requires |ids| == 11
    ensures |r| == 4
    ensures forall k :: 0 <= k < 4 ==>
              r[k] == Detalle(ids[7 + k], idDiagnostico, "alineacion_" + Clave(Posiciones[k]),
                              balanceo.Get(Posiciones[k]))
  {
    seq(4, k requires 0 <= k < 4 =>
      Detalle(ids[7 + k], idDiagnostico, "alineacion_" + Clave(Posiciones[k]), balanceo.Get(Posiciones[k])))
  }

  /** The state the selectors can produce: each condition is one of its two options. */
  predicate DeLosSelectores(e: Estado)
  {
    && (e.motor == "Normal" || e.motor == "Falla")
    && (e.bateria == "Normal" || e.bateria == "Baja")
    && (e.frenos == "Normal" || e.frenos == "Desgastados")
    && forall p :: e.presionNeumaticos.Get(p) == "Normal" || e.presionNeumaticos.Get(p) == "Baja"
  }

  /** Reads one condition back from its row value: `marca` means `si`, anything else "Normal". */
  function Leer(valor: real, marca: real, si: string): (c: string)
    ensures c == si || c == "Normal"
  {
    if valor == marca then si else "Normal"
  }

  /** Reads a state back from eleven detail rows in the order `Detalles` writes them. */
  function EstadoDe(rows: seq<Detalle>): (e: Estado)
    requires |rows| == 11
    ensures DeLosSelectores(e)
  {
    var presion := PorRueda(Leer(rows[3].valor, 25.0, "Baja"), Leer(rows[4].valor, 25.0, "Baja"),
                            Leer(rows[5].valor, 25.0, "Baja"), Leer(rows[6].valor, 25.0, "Baja"));
    assert forall p :: presion.Get(p) == "Normal" || presion.Get(p) == "Baja";
    Estado(Leer(rows[0].valor, 1.0, "Falla"), Leer(rows[1].valor, 1.0, "Baja"),
           Leer(rows[2].valor, 1.0, "Desgastados"), presion,
           PorRueda(rows[7].valor, rows[8].valor, rows[9].valor, rows[10].valor))
  }

  /** The detail rows lose nothing the selectors can set: reading them back gives the
      state they were built from, and so the same recommendations. */
  lemma DetallesIdaYVuelta(idDiagnostico: string, ids: seq<string>, e: Estado,
                           previa: Option<map<string, string>>)
    requires |ids| == 11 && DeLosSelectores(e)
    ensures EstadoDe(Detalles(idDiagnostico, ids, e)) == e
    ensures Recomendaciones(EstadoDe(Detalles(idDiagnostico, ids, e)), previa) == Recomendaciones(e, previa)
  {
    var r := Detalles(idDiagnostico, ids, e);
    var d := EstadoDe(r);
    assert d.presionNeumaticos.Get(Posiciones[0]) == e.presionNeumaticos.Get(Posiciones[0]);
    assert d.presionNeumaticos.Get(Posiciones[1]) == e.presionNeumaticos.Get(Posiciones[1]);
    assert d.presionNeumaticos.Get(Posiciones[2]) == e.presionNeumaticos.Get(Posiciones[2]);
    assert d.presionNeumaticos.Get(Posiciones[3]) == e.presionNeumaticos.Get(Posiciones[3]);
    assert d.balanceo.Get(Posiciones[0]) == e.balanceo.Get(Posiciones[0]);
    assert d.balanceo.Get(Posiciones[1]) == e.balanceo.Get(Posiciones[1]);
    assert d.balanceo.Get(Posiciones[2]) == e.balanceo.Get(Posiciones[2]);
    assert d.balanceo.Get(Posiciones[3]) == e.balanceo.Get(Posiciones[3]);
  }

  /** What "Siguiente" posts to `/diagnosticos/completo`. */
  datatype Payload = Payload(id_diagnostico: string, placa: string, fecha: string, detalles: seq<Detalle>)

  /** After the first `i` tyres: `r` holds the messages of `recs`, the tyre rules so far. */
  ghost predicate RecorridoInflados(presion: PorRueda<string>, i: int, r: seq<string>, recs: seq<Recomendacion>)
  {
    0 <= i <= 4 && recs == Inflados(presion, Posiciones[..i]) && r == Map(Texto, recs)
  }

  lemma PasoInflados(presion: PorRueda<string>, i: int, r: seq<string>, recs: seq<Recomendacion>)
    requires RecorridoInflados(presion, i, r, recs) && i < 4
    ensures var p := Posiciones[i];
            if presion.Get(p) == "Baja"
            then RecorridoInflados(presion, i + 1, r + [Texto(InflarNeumatico(p))], recs + [InflarNeumatico(p)])
            else RecorridoInflados(presion, i + 1, r, recs)
  {
    assert Posiciones[..i + 1][..i] == Posiciones[..i];
    MapPush(Texto, recs, InflarNeumatico(Posiciones[i]));
  }

  /** After the tyres (`inflados`) and the first `i` wheels' alignment. */
  ghost predicate RecorridoAlineaciones(inflados: seq<Recomendacion>, balanceo: PorRueda<real>, i: int,
                                        r: seq<string>, recs: seq<Recomendacion>)
  {
    0 <= i <= 4 && recs == Alineaciones(inflados, balanceo, Posiciones[..i]) && r == Map(Texto, recs)
  }

  lemma PasoAlineaciones(inflados: seq<Recomendacion>, balanceo: PorRueda<real>, i: int,
                         r: seq<string>, recs: seq<Recomendacion>)
    requires RecorridoAlineaciones(inflados, balanceo, i, r, recs) && i < 4
    ensures var p := Posiciones[i];
            if Abs(balanceo.Get(p)) > 1.0
            then RecorridoAlineaciones(inflados, balanceo, i + 1, r + [Texto(Alinear(p))], recs + [Alinear(p)])
            else RecorridoAlineaciones(inflados, balanceo, i + 1, r, recs)
  {
    assert Posiciones[..i + 1][..i] == Posiciones[..i];
    MapPush(Texto, recs, Alinear(Posiciones[i]));
  }

  /** The first `forEach` of `getRecomendaciones`: one tyre message per tyre at "Baja",
      in wheel order; `recs` are the recommendations behind the messages. */
  method MensajesInflado(presion: PorRueda<string>) returns (r: seq<string>, ghost recs: seq<Recomendacion>)
    ensures r == Map(Texto, Inflados(presion, Posiciones))
    ensures recs == Inflados(presion, Posiciones)
  {
    r, recs := [], [];
    var i := 0;
    while i < |Posiciones|
      invariant RecorridoInflados(presion, i, r, recs)
    {
      var p := Posiciones[i];
      PasoInflados(presion, i, r, recs);
      if presion.Get(p) == "Baja" {
        r, recs := r + [Texto(InflarNeumatico(p))], recs + [InflarNeumatico(p)];
      }
      i := i + 1;
    }
    PosicionesCompletas();
  }

  /** The second `forEach`: one alignment message per wheel beyond tolerance, in wheel
      order, after the tyre messages. */
  method MensajesAlineacion(inflados: seq<string>, ghost recsInflados: seq<Recomendacion>,
                            balanceo: PorRueda<real>) returns (r: seq<string>)
    requires inflados == Map(Texto, recsInflados)
    ensures r == Map(Texto, Alineaciones(recsInflados, balanceo, Posiciones))
  {
    r := inflados;
    ghost var recs := recsInflados;
    assert Posiciones[..0] == [];
    var i := 0;
    while i < |Posiciones|
      invariant RecorridoAlineaciones(recsInflados, balanceo, i, r, recs)
    {
      var p := Posiciones[i];
      PasoAlineaciones(recsInflados, balanceo, i, r, recs);
      if Abs(balanceo.Get(p)) > 1.0 {
        r, recs := r + [Texto(Alinear(p))], recs + [Alinear(p)];
      }
      i := i + 1;
    }
    PosicionesCompletas();
  }

  /** The two `forEach` loops of `getRecomendaciones`: the tyre messages, then the
      alignment messages, each in wheel order. */
  method MensajesRuedas(presion: PorRueda<string>, balanceo: PorRueda<real>) returns (r: seq<string>)
    ensures r == Map(Texto, Alineaciones(Inflados(presion, Posiciones), balanceo, Posiciones))
  {
    var inflados, recs := MensajesInflado(presion);
    r := MensajesAlineacion(inflados, recs, balanceo);
  }

  // ---------------------------------------------------------------- the page

  class DiagnosticoPage {
    var estado: Estado
    var inspeccionPrev: Option<map<string, string>>

    /** The page opens on the initial state; the prior inspection is kept only when a
        vehicle was selected. */
    constructor(vehiculoSeleccionado: bool, inspeccionActual: Option<map<string, string>>)
      ensures estado == Inicial
      ensures inspeccionPrev == if vehiculoSeleccionado then inspeccionActual else None
    {
      estado := Inicial;
      inspeccionPrev := if vehiculoSeleccionado then inspeccionActual else None;
    }

    /** `handleChange`: sets one of motor, bateria or frenos. */
    method HandleChange(componente: Componente, valor: string)
      modifies this
      ensures estado == match componente
                        case Motor => old(estado).(motor := valor)
                        case Bateria => old(estado).(bateria := valor)
                        case Frenos => old(estado).(frenos := valor)
      ensures inspeccionPrev == old(inspeccionPrev)
    {
      match componente
      case Motor => estado := estado.(motor := valor);
      case Bateria => estado := estado.(bateria := valor);
      case Frenos => estado := estado.(frenos := valor);
    }

    /** `handleNeumaticoChange`: sets the pressure of one tyre. */
    method HandleNeumaticoChange(posicion: Posicion, valor: string)
      modifies this
      ensures estado == old(estado).(presionNeumaticos := old(estado).presionNeumaticos.Set(posicion, valor))
      ensures inspeccionPrev == old(inspeccionPrev)
    {
      estado := estado.(presionNeumaticos := estado.presionNeumaticos.Set(posicion, valor));
    }

    /** `handleBalanceoChange`: sets the camber of one wheel (the number already parsed). */
    method HandleBalanceoChange(posicion: Posicion, valor: real)
      modifies this
      ensures estado == old(estado).(balanceo := old(estado).balanceo.Set(posicion, valor))
      ensures inspeccionPrev == old(inspeccionPrev)
    {
      estado := estado.(balanceo := estado.balanceo.Set(posicion, valor));
    }

    /** `getRecomendaciones`: the messages of the rules, pushed in their order. */
    method GetRecomendaciones() returns (r: seq<string>)
      ensures r == Map(Texto, Recomendaciones(estado, inspeccionPrev))
    {
      var e, previa := estado, inspeccionPrev;
      r := MensajesRuedas(e.presionNeumaticos, e.balanceo);
      ghost var recs := Alineaciones(Inflados(e.presionNeumaticos, Posiciones), e.balanceo, Posiciones);
      ghost var antesRevisarMotor := recs;
      if e.motor == "Falla" {
        MapPush(Texto, recs, RevisarMotor);
        r, recs := r + [Texto(RevisarMotor)], recs + [RevisarMotor];
      }
      assert recs == Anadir(antesRevisarMotor, e.motor == "Falla", RevisarMotor);
      ghost var antesCargarBateria := recs;
      if e.bateria == "Baja" {
        MapPush(Texto, recs, CargarBateria);
        r, recs := r + [Texto(CargarBateria)], recs + [CargarBateria];
      }
      assert recs == Anadir(antesCargarBateria, e.bateria == "Baja", CargarBateria);
      ghost var antesCambiarPastillas := recs;
      if e.frenos == "Desgastados" {
        MapPush(Texto, recs, CambiarPastillas);
        r, recs := r + [Texto(CambiarPastillas)], recs + [CambiarPastillas];
      }
      assert recs == Anadir(antesCambiarPastillas, e.frenos == "Desgastados", CambiarPastillas);
      ghost var antesAdvertenciaFrenos := recs;
      if InspeccionPideFrenos(previa) && e.frenos == "Normal" {
        MapPush(Texto, recs, AdvertenciaFrenos);
        r, recs := r + [Texto(AdvertenciaFrenos)], recs + [AdvertenciaFrenos];
      }
      assert recs == Anadir(antesAdvertenciaFrenos, InspeccionPideFrenos(previa) && e.frenos == "Normal", AdvertenciaFrenos);
    }

    /** "Siguiente": with recommendations pending the user must confirm; then the
        diagnostic is posted with its eleven detail rows. */
    method Siguiente(confirmado: bool, idDiagnostico: string, ids: seq<string>, placa: string, hoy: string)
      returns (envio: Option<Payload>)
      requires |ids| == 11
      ensures envio.None? <==> Recomendaciones(estado, inspeccionPrev) != [] && !confirmado
      ensures envio.Some? ==>
                envio.value == Payload(idDiagnostico, placa, hoy, Detalles(idDiagnostico, ids, estado))
    {
      var recomendaciones := GetRecomendaciones();
      if |recomendaciones| > 0 && !confirmado {
        return None;
      }
      return Some(Payload(idDiagnostico, placa, hoy, Detalles(idDiagnostico, ids, estado)));
    }
  }
}
