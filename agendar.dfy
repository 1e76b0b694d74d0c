/** The appointment page: choose a client and one of its vehicles, fill in the form,
    and append the appointment; today's appointments, the list sorted by date and the
    client-name lookup. */
module Agendar {
  import opened Wrappers
  import opened Seqs
  import opened Fechas
  import Text

  datatype Vehiculo = Vehiculo(placa: string, marca: string)

  /** A client as stored in the browser; `vehiculos` may be missing. */
  datatype Cliente = Cliente(id: string, nombre: string, vehiculos: Option<seq<Vehiculo>>)

  datatype FormularioCita = FormularioCita(fecha: string, hora: string, servicio: string,
                                           email: string, telefono: string)

  const FormularioVacio := FormularioCita("", "", "", "", "")

  /** The email input's `pattern="[^@\s]+@[^@\s]+\.[^@\s]+"`, matched against the whole
      value: no white space anywhere, a single `@` that is not first, and after it a `.`
      with at least one character on either side. */
  predicate CorreoValido(s: string)
  {
    && (forall k :: 0 <= k < |s| ==> !Text.IsSpace(s[k]))
    && exists i, j :: 0 < i < |s| && i + 1 < j < |s| - 1 && s[i] == '@' && s[j] == '.'
                     && forall k :: 0 <= k < |s| && s[k] == '@' ==> k == i
  }

  /** The phone input's `pattern="[0-9]{7,}"`: at least seven digits and nothing else. */
  predicate TelefonoValido(s: string)
  {
    |s| >= 7 && Digitos(s)
  }

  /** An address the appointment form accepts also passes the registration form's test,
      which allows `@` in the last two parts. */
  lemma CorreoValidoEsCorreo(s: string)
    requires CorreoValido(s)
    ensures Text.MatchesEmailPattern(s)
  {
    var i, j :| 0 < i < |s| && i + 1 < j < |s| - 1 && s[i] == '@' && s[j] == '.'
                && forall k :: 0 <= k < |s| && s[k] == '@' ==> k == i;
    assert Text.PatternAt(s, 0, i, j, |s|);
  }

  /** "a" is no address and "12" is too short a phone; a plain address and a ten-digit
      phone pass. */
  lemma CorreoYTelefonoEjemplos()
    ensures !CorreoValido("a") && !TelefonoValido("12")
    ensures CorreoValido("ana@taller.co") && TelefonoValido("3001234567")
  {
    var s := "ana@taller.co";
    assert s[3] == '@' && s[10] == '.';
    assert forall k :: 0 <= k < |s| && s[k] == '@' ==> k == 3;
  }

  /** `{ cliente, vehiculo, ...cita }`. */
  datatype Cita = Cita(cliente: string, vehiculo: string, fecha: string, hora: string,
                       servicio: string, email: string, telefono: string)

  const ServiciosDisponibles: seq<string> := [
    "Cambio de Aceite", "Alineación y Balanceo", "Cambio de Filtros", "Revisión General", "Cambio de Batería"
  ]

  function BuscarCliente(clientes: seq<Cliente>, id: string): Option<Cliente>
  {
    Find(clientes, (c: Cliente) => c.id == id)
  }

  /** The vehicle list offered for the selected client: that client's vehicles, or
      nothing when no client is selected, the client is unknown or has none stored. */
  function VehiculosDe(clientes: seq<Cliente>, clienteSeleccionado: string): (r: seq<Vehiculo>)
    ensures clienteSeleccionado == "" ==> r == []
    ensures (forall i :: 0 <= i < |clientes| ==> clientes[i].id != clienteSeleccionado) ==> r == []
    ensures clienteSeleccionado != "" ==>
              forall i :: 0 <= i < |clientes| && clientes[i].id == clienteSeleccionado
                          && (forall j :: 0 <= j < i ==> clientes[j].id != clienteSeleccionado)
                          ==> r == clientes[i].vehiculos.GetOr([])
  {
    if clienteSeleccionado == "" then []
    else
      match BuscarCliente(clientes, clienteSeleccionado)
      case None => []
      case Some(c) => c.vehiculos.GetOr([])
  }

  /** `obtenerNombreCliente`: the name of the first client with that id, or "Desconocido". */
  function NombreCliente(clientes: seq<Cliente>, id: string): (n: string)
    ensures (forall i :: 0 <= i < |clientes| ==> clientes[i].id != id) ==> n == "Desconocido"
    ensures forall i :: 0 <= i < |clientes| && clientes[i].id == id
                        && (forall j :: 0 <= j < i ==> clientes[j].id != id)
                        ==> n == clientes[i].nombre
  {
    match BuscarCliente(clientes, id)
    case None => "Desconocido"
    case Some(c) => c.nombre
  }

  /** `{ ...cita, [name]: value }`. */
  function ConCampo(f: FormularioCita, name: string, value: string): FormularioCita
  {
    match name
    case "fecha" => f.(fecha := value)
    case "hora" => f.(hora := value)
    case "servicio" => f.(servicio := value)
    case "email" => f.(email := value)
    case "telefono" => f.(telefono := value)
    case _ => f
  }

  /** `citasDelDia`: the appointments dated today, in their order, each as many times
      as it is listed. */
  function DelDia(citas: seq<Cita>, hoy: string): (r: seq<Cita>)
    ensures IsSublist(r, citas)
    ensures forall c :: c in r <==> c in citas && c.fecha == hoy
    ensures forall c :: multiset(r)[c] == if c.fecha == hoy then multiset(citas)[c] else 0
  {
    FilterIsSublist(citas, (c: Cita) => c.fecha == hoy);
    FilterMultiset(citas, (c: Cita) => c.fecha == hoy);
    Filter(citas, (c: Cita) => c.fecha == hoy)
  }

  /** Each appointment dates no later than the next; the page's comparator subtracts
      the two dates, which for ISO dates orders them as strings do. */
  predicate Ordenada(s: seq<Cita>)
  {
    forall i :: 0 <= i < |s| - 1 ==> LexLe(s[i].fecha, s[i + 1].fecha)
  }

  /** Sorted neighbour by neighbour means sorted throughout. */
  lemma {:induction false} OrdenadaTodos(s: seq<Cita>, i: int, j: int)
    requires Ordenada(s) && 0 <= i <= j < |s|
    ensures LexLe(s[i].fecha, s[j].fecha)
    decreases j - i
  {
    if i == j {
      LexLeReflexive(s[i].fecha);
    } else {
      OrdenadaTodos(s, i + 1, j);
      LexLeTransitive(s[i].fecha, s[i + 1].fecha, s[j].fecha);
    }
  }

  /** The prefix `s[..i + 1]` sorted except possibly between `j - 1` and `j`, and the
      element at `j - 1` no later than the one at `j + 1`. */
  ghost predicate Insertando(s: seq<Cita>, i: int, j: int)
    requires 0 <= j <= i < |s|
  {
    && (forall k :: 0 <= k < i && k != j - 1 ==> LexLe(s[k].fecha, s[k + 1].fecha))
    && (0 < j < i ==> LexLe(s[j - 1].fecha, s[j + 1].fecha))
  }

  /** Swapping an out-of-order pair moves the only gap one place to the left. */
  lemma IntercambioPaso(s: seq<Cita>, i: int, j: int)
    requires 0 < j <= i < |s| && Insertando(s, i, j) && !LexLe(s[j - 1].fecha, s[j].fecha)
    ensures Insertando(s[j - 1 := s[j]][j := s[j - 1]], i, j - 1)
    ensures multiset(s[j - 1 := s[j]][j := s[j - 1]]) == multiset(s)
  {
    LexLeTotal(s[j - 1].fecha, s[j].fecha);
    var t := s[j - 1 := s[j]][j := s[j - 1]];
    forall k | 0 <= k < i && k != j - 2
      ensures LexLe(t[k].fecha, t[k + 1].fecha)
    {
      if k == j - 1 {
      } else if k == j {
      } else {
        assert t[k] == s[k] && t[k + 1] == s[k + 1];
      }
    }
  }

  /** Inserting `a[i]` into the sorted prefix before it, by swaps to the left. */
  method Insertar(a: array<Cita>, i: int)
    requires 0 < i < a.Length && Ordenada(a[..i])
    modifies a
    ensures Ordenada(a[..i + 1])
    ensures multiset(a[..]) == multiset(old(a[..]))
  {
    var j := i;
    while j > 0 && !LexLe(a[j - 1].fecha, a[j].fecha)
      invariant 0 <= j <= i
      invariant Insertando(a[..], i, j)
      invariant multiset(a[..]) == multiset(old(a[..]))
    {
      ghost var antes := a[..];
      IntercambioPaso(antes, i, j);
      a[j - 1], a[j] := a[j], a[j - 1];
      assert a[..] == antes[j - 1 := antes[j]][j := antes[j - 1]];
      j := j - 1;
    }
    ghost var hecho := a[..i + 1];
    forall k | 0 <= k < i
      ensures LexLe(hecho[k].fecha, hecho[k + 1].fecha)
    {
      assert hecho[k] == a[k] && hecho[k + 1] == a[k + 1];
    }
  }

  /** `citas.sort((a, b) => new Date(a.fecha) - new Date(b.fecha))`, in place: the
      array ends sorted by date and holds the same appointments. */
  method OrdenarPorFecha(a: array<Cita>)
    modifies a
    ensures Ordenada(a[..])
    ensures multiset(a[..]) == multiset(old(a[..]))
  {
    if a.Length == 0 {
      return;
    }
    var i := 1;
    while i < a.Length
      invariant 1 <= i <= a.Length
      invariant Ordenada(a[..i])
      invariant multiset(a[..]) == multiset(old(a[..]))
    {
      Insertar(a, i);
      i := i + 1;
    }
    assert a[..i] == a[..];
  }

  class AgendarCitaPage {
    var clientes: seq<Cliente>
    var clienteSeleccionado: string
    var vehiculosCliente: seq<Vehiculo>
    var vehiculoSeleccionado: string
    var cita: FormularioCita
    var citas: seq<Cita>

    /** The page with the clients and appointments stored in the browser. */
    constructor(clientes: seq<Cliente>, citas: seq<Cita>)
      ensures this.clientes == clientes && this.citas == citas
      ensures clienteSeleccionado == "" && vehiculosCliente == [] && vehiculoSeleccionado == ""
      ensures cita == FormularioVacio
    {
      this.clientes, this.citas := clientes, citas;
      clienteSeleccionado, vehiculosCliente, vehiculoSeleccionado := "", [], "";
      cita := FormularioVacio;
    }

    /** Choosing a client also reloads the vehicle list. */
    method SeleccionarCliente(id: string)
      modifies this
      ensures clienteSeleccionado == id && vehiculosCliente == VehiculosDe(clientes, id)
      ensures clientes == old(clientes) && vehiculoSeleccionado == old(vehiculoSeleccionado)
      ensures cita == old(cita) && citas == old(citas)
    {
      clienteSeleccionado := id;
      vehiculosCliente := VehiculosDe(clientes, id);
    }

    method SeleccionarVehiculo(placa: string)
      modifies this
      ensures vehiculoSeleccionado == placa
      ensures clientes == old(clientes) && clienteSeleccionado == old(clienteSeleccionado)
      ensures vehiculosCliente == old(vehiculosCliente) && cita == old(cita) && citas == old(citas)
    {
      vehiculoSeleccionado := placa;
    }

    method HandleChange(name: string, value: string)
      modifies this
      ensures cita == ConCampo(old(cita), name, value)
      ensures clientes == old(clientes) && clienteSeleccionado == old(clienteSeleccionado)
      ensures vehiculosCliente == old(vehiculosCliente) && vehiculoSeleccionado == old(vehiculoSeleccionado)
      ensures citas == old(citas)
    {
      cita := ConCampo(cita, name, value);
    }

    /** Submitting the form: the browser first refuses an empty required field, an email
        outside the input's pattern or a phone outside its pattern, and `agendarCita`
        then refuses a missing selection. In each of those cases nothing changes;
        otherwise the new appointment goes at the end, the form and the vehicle clear,
        and the client stays selected. The result is the appointment the reminder is
        sent for. */
    method AgendarCita() returns (nueva: Option<Cita>)
      modifies this
      ensures nueva.None? <==>
                old(clienteSeleccionado) == "" || old(vehiculoSeleccionado) == "" || old(cita).fecha == ""
                || old(cita).hora == "" || old(cita).servicio == "" || old(cita).email == ""
                || old(cita).telefono == ""
                || !CorreoValido(old(cita).email) || !TelefonoValido(old(cita).telefono)
      ensures nueva.None? ==>
                citas == old(citas) && cita == old(cita) && vehiculoSeleccionado == old(vehiculoSeleccionado)
      ensures nueva.Some? ==>
                && nueva.value == Cita(old(clienteSeleccionado), old(vehiculoSeleccionado), old(cita).fecha,
                                       old(cita).hora, old(cita).servicio, old(cita).email, old(cita).telefono)
                && citas == old(citas) + [nueva.value]
                && cita == FormularioVacio && vehiculoSeleccionado == ""
      ensures clientes == old(clientes) && clienteSeleccionado == old(clienteSeleccionado)
      ensures vehiculosCliente == old(vehiculosCliente)
    {
      if clienteSeleccionado == "" || vehiculoSeleccionado == "" || cita.fecha == "" || cita.hora == ""
         || cita.servicio == "" || cita.email == "" || cita.telefono == ""
         || !CorreoValido(cita.email) || !TelefonoValido(cita.telefono) {
        return None;
      }
      var c := Cita(clienteSeleccionado, vehiculoSeleccionado, cita.fecha, cita.hora, cita.servicio,
                    cita.email, cita.telefono);
      citas := citas + [c];
      cita := FormularioVacio;
      vehiculoSeleccionado := "";
      nueva := Some(c);
    }

    /** Rendering the list sorts the stored appointments in place: afterwards they are
        in date order and are the same appointments as before. */
    method OrdenarCitas()
      modifies this
      ensures Ordenada(citas) && multiset(citas) == multiset(old(citas))
      ensures clientes == old(clientes) && clienteSeleccionado == old(clienteSeleccionado)
      ensures vehiculosCliente == old(vehiculosCliente) && vehiculoSeleccionado == old(vehiculoSeleccionado)
      ensures cita == old(cita)
    {
      var actuales := citas;
      var a := new Cita[|actuales|](i requires 0 <= i < |actuales| => actuales[i]);
      assert a[..] == actuales;
      OrdenarPorFecha(a);
      citas := a[..];
    }
  }
}
