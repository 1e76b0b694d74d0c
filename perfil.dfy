/** The workshop profile page: text fields, a specialization that decides which
    services can be offered, and the offered services as a list the user toggles. */
module Perfil {
  import opened Seqs

  datatype PerfilTaller = PerfilTaller(nombre: string, correo: string, telefono: string,
                                       direccion: string, logo: string, especializacion: string,
                                       descripcion: string, servicios: seq<string>,
                                       horarioApertura: string, horarioCierre: string)

  const PerfilInicial := PerfilTaller("", "", "", "", "", "General", "", [], "08:00", "18:00")

  const Especializaciones: seq<string> := [
    "General", "Frenos", "Alineación y Balanceo", "Llantas", "Diagnóstico Electrónico",
    "Cambio de Aceite", "Reparación de Motores"
  ]

  /** The services each specialization may offer. */
  const ServiciosDisponibles: map<string, seq<string>> := map[
    "General" := ["Frenos", "Cambio de Aceite", "Alineación", "Baterías", "Diagnóstico Electrónico"],
    "Frenos" := ["Revisión de Frenos", "Cambio de Pastillas", "Reparación de Freno ABS"],
    "Alineación y Balanceo" := ["Alineación", "Balanceo de Ruedas", "Corrección de Caída"],
    "Llantas" := ["Cambio de Llantas", "Rotación de Llantas", "Ajuste de Presión"],
    "Diagnóstico Electrónico" := ["Scanner Automotriz", "Chequeo de Sensores", "Codificación de Llaves"],
    "Cambio de Aceite" := ["Cambio de Aceite", "Cambio de Filtros"],
    "Reparación de Motores" := ["Diagnóstico de Motor", "Cambio de Piezas", "Ajuste de Válvulas"]
  ]

  function Catalogo(especializacion: string): seq<string>
  {
    if especializacion in ServiciosDisponibles then ServiciosDisponibles[especializacion] else []
  }

  /** Every specialization on offer has its catalog. */
  lemma EspecializacionesConCatalogo()
    ensures forall e :: e in Especializaciones ==> e in ServiciosDisponibles
  {
  }

  /** The profile starts as "General", offering nothing, open 08:00 to 18:00, with
      every text field empty. */
  lemma PerfilInicialValores()
    ensures PerfilInicial.especializacion == "General" && PerfilInicial.servicios == []
    ensures PerfilInicial.horarioApertura == "08:00" && PerfilInicial.horarioCierre == "18:00"
    ensures PerfilInicial.nombre == "" && PerfilInicial.correo == "" && PerfilInicial.telefono == ""
    ensures PerfilInicial.direccion == "" && PerfilInicial.logo == "" && PerfilInicial.descripcion == ""
  {
  }

  /** `{ ...prev, [name]: value }` for the text inputs. */
  function ConCampo(p: PerfilTaller, name: string, value: string): PerfilTaller
  {
    match name
    case "nombre" => p.(nombre := value)
    case "correo" => p.(correo := value)
    case "telefono" => p.(telefono := value)
    case "direccion" => p.(direccion := value)
    case "logo" => p.(logo := value)
    case "especializacion" => p.(especializacion := value)
    case "descripcion" => p.(descripcion := value)
    case "horarioApertura" => p.(horarioApertura := value)
    case "horarioCierre" => p.(horarioCierre := value)
    case _ => p
  }

  /** A text change writes the named field and nothing else; the services stay. */
  lemma ConCampoSoloEse(p: PerfilTaller, name: string, value: string)
    ensures var r := ConCampo(p, name, value);
      && r.servicios == p.servicios
      && (r.nombre == if name == "nombre" then value else p.nombre)
      && (r.correo == if name == "correo" then value else p.correo)
      && (r.telefono == if name == "telefono" then value else p.telefono)
      && (r.direccion == if name == "direccion" then value else p.direccion)
      && (r.logo == if name == "logo" then value else p.logo)
      && (r.especializacion == if name == "especializacion" then value else p.especializacion)
      && (r.descripcion == if name == "descripcion" then value else p.descripcion)
      && (r.horarioApertura == if name == "horarioApertura" then value else p.horarioApertura)
      && (r.horarioCierre == if name == "horarioCierre" then value else p.horarioCierre)
  {
  }

  /** `handleServiciosChange` on the list: a present service is filtered out, an absent
      one goes at the end. */
  function Alternar(servicios: seq<string>, s: string): seq<string>
  {
    if s in servicios then Filter(servicios, x => x != s) else servicios + [s]
  }

  /** The toggled service is offered afterwards exactly when it was not before, and
      every other service keeps its status. */
  lemma AlternarPertenencia(servicios: seq<string>, s: string)
    ensures s in Alternar(servicios, s) <==> s !in servicios
    ensures forall x :: x != s ==> (x in Alternar(servicios, s) <==> x in servicios)
  {
    if s in servicios {
      var r := Alternar(servicios, s);
      forall x | x != s && x in servicios
        ensures x in r
      {
        var i :| 0 <= i < |servicios| && servicios[i] == x;
      }
    }
  }

  /** Toggling an absent service twice gives back the original list. */
  lemma AlternarDosVeces(servicios: seq<string>, s: string)
    requires s !in servicios
    ensures Alternar(Alternar(servicios, s), s) == servicios
  {
    assert s in servicios + [s];
    FilterAppend(servicios, s, x => x != s);
    FilterAll(servicios, x => x != s);
  }

  /** A list without repetitions stays without repetitions. */
  lemma AlternarSinRepetidos(servicios: seq<string>, s: string)
    requires Distinct(servicios)
    ensures Distinct(Alternar(servicios, s))
  {
    if s in servicios {
      FilterDistinct(servicios, x => x != s);
    } else {
      var r := servicios + [s];
      forall i, j | 0 <= i < j < |r|
        ensures r[i] != r[j]
      {
        if j == |servicios| {
          assert r[i] == servicios[i];
        }
      }
    }
  }

  /** Toggling a service of the current catalog keeps the offer within that catalog. */
  lemma AlternarDentroDelCatalogo(servicios: seq<string>, s: string, especializacion: string)
    requires forall x :: x in servicios ==> x in Catalogo(especializacion)
    requires s in Catalogo(especializacion)
    ensures forall x :: x in Alternar(servicios, s) ==> x in Catalogo(especializacion)
  {
    AlternarPertenencia(servicios, s);
  }

  class PerfilTallerPage {
    var perfil: PerfilTaller

    constructor()
      ensures perfil == PerfilInicial
    {
      perfil := PerfilInicial;
    }

    method HandleChange(name: string, value: string)
      modifies this
      ensures perfil == ConCampo(old(perfil), name, value)
    {
      perfil := ConCampo(perfil, name, value);
    }

    /** A new specialization empties the offered services, since the old ones belong to
        another catalog; every other field stays. */
    method HandleEspecializacionChange(nueva: string)
      modifies this
      ensures perfil == old(perfil).(especializacion := nueva, servicios := [])
      ensures forall x :: x in perfil.servicios ==> x in Catalogo(perfil.especializacion)
    {
      perfil := perfil.(especializacion := nueva, servicios := []);
    }

    method HandleServiciosChange(servicio: string)
      modifies this
      ensures perfil == old(perfil).(servicios := Alternar(old(perfil).servicios, servicio))
    {
      perfil := perfil.(servicios := Alternar(perfil.servicios, servicio));
    }
  }
}
