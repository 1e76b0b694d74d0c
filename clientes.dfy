/** The client list page: the clients the backend returned, a search on one chosen
    field, removal after confirmation, the edit dialog, and the one-bar chart. */
module Clientes {
  import opened Wrappers
  import opened Text
  import opened Seqs
  import opened Http

  /** A client as the backend lists it; the optional fields may come back as `null`. */
  datatype Cliente = Cliente(id: string, nombre: string, tecnomecanica: string,
                             email: Option<string>, telefono: Option<string>,
                             direccion: Option<string>, estado: string)

  /** `c[filtro]`: the field named by the filter, or nothing when it is `null` or the
      client has no such field. */
  function CampoDe(c: Cliente, filtro: string): Option<string>
  {
    match filtro
    case "id" => Some(c.id)
    case "nombre" => Some(c.nombre)
    case "tecnomecanica" => Some(c.tecnomecanica)
    case "email" => c.email
    case "telefono" => c.telefono
    case "direccion" => c.direccion
    case "estado" => Some(c.estado)
    case _ => None
  }

  /** `c[filtro]?.toLowerCase().includes(busqueda.toLowerCase())`. */
  predicate Coincide(c: Cliente, filtro: string, busqueda: string)
  {
    CampoDe(c, filtro).Some? && Contains(Lower(CampoDe(c, filtro).value), Lower(busqueda))
  }

  /** `clientesFiltrados`: in their order, the clients whose chosen field is present and
      contains the search, both lower-cased. */
  function Filtrados(clientes: seq<Cliente>, filtro: string, busqueda: string): (r: seq<Cliente>)
    ensures IsSublist(r, clientes)
    ensures forall c :: c in r <==> c in clientes && Coincide(c, filtro, busqueda)
  {
    FilterIsSublist(clientes, (c: Cliente) => Coincide(c, filtro, busqueda));
    Filter(clientes, (c: Cliente) => Coincide(c, filtro, busqueda))
  }

  /** An empty search keeps a client exactly when its chosen field is present: a `null`
      e-mail or phone hides the client even then. */
  lemma BusquedaVacia(clientes: seq<Cliente>, filtro: string)
    ensures forall c :: c in Filtrados(clientes, filtro, "") <==> c in clientes && CampoDe(c, filtro).Some?
  {
    forall c | CampoDe(c, filtro).Some?
      ensures Coincide(c, filtro, "")
    {
      ContainsEmpty(Lower(CampoDe(c, filtro).value));
    }
  }

  /** With the default filter "nombre" the empty search keeps the whole list. */
  lemma BusquedaVaciaPorNombre(clientes: seq<Cliente>)
    ensures Filtrados(clientes, "nombre", "") == clientes
  {
    var p := (c: Cliente) => Coincide(c, "nombre", "");
    forall i | 0 <= i < |clientes|
      ensures p(clientes[i])
    {
      ContainsEmpty(Lower(clientes[i].nombre));
    }
    FilterAll(clientes, p);
  }

  /** The clients left after removing `id`: every client with that id goes, the rest
      stay in order. */
  function SinId(clientes: seq<Cliente>, id: string): (r: seq<Cliente>)
    ensures IsSublist(r, clientes)
    ensures forall c :: c in r <==> c in clientes && c.id != id
  {
    FilterIsSublist(clientes, (c: Cliente) => c.id != id);
    Filter(clientes, (c: Cliente) => c.id != id)
  }

  /** The count on the chart drops exactly when some client had that id. */
  lemma SinIdCuenta(clientes: seq<Cliente>, id: string)
    ensures |SinId(clientes, id)| <= |clientes|
    ensures |SinId(clientes, id)| < |clientes| <==> exists i :: 0 <= i < |clientes| && clientes[i].id == id
  {
    FilterKeepsLength(clientes, (c: Cliente) => c.id != id);
  }

  /** The edit dialog's `{ ...clienteEditando, [name]: value }` for its four inputs. */
  function ConCampo(c: Cliente, name: string, value: string): Cliente
  {
    match name
    case "nombre" => c.(nombre := value)
    case "telefono" => c.(telefono := Some(value))
    case "email" => c.(email := Some(value))
    case "tecnomecanica" => c.(tecnomecanica := value)
    case _ => c
  }

  /** An edit writes the named field; the id, the address and the estado never change. */
  lemma ConCampoSoloEse(c: Cliente, name: string, value: string)
    ensures var r := ConCampo(c, name, value);
      && r.id == c.id && r.direccion == c.direccion && r.estado == c.estado
      && (r.nombre == if name == "nombre" then value else c.nombre)
      && (r.telefono == if name == "telefono" then Some(value) else c.telefono)
      && (r.email == if name == "email" then Some(value) else c.email)
      && (r.tecnomecanica == if name == "tecnomecanica" then value else c.tecnomecanica)
  {
  }

  const ErrorCarga := "Error al cargar los clientes."
  const ErrorActualizar := "No se pudo actualizar el cliente."
  const ErrorEliminar := "No se pudo eliminar el cliente."
  const ErrorConexion := "Error al conectar con el servidor."
  const ErrorConexionCarga := "Error de conexión con el servidor."

  class ClientesPage {
    var clientes: seq<Cliente>
    var busqueda: string
    var filtro: string
    var modalAbierto: bool
    var clienteEditando: Option<Cliente>
    var error: string

    /** The edit dialog is only open on a client. */
    ghost predicate Valid()
      reads this
    {
      modalAbierto ==> clienteEditando.Some?
    }

    constructor()
      ensures Valid()
      ensures clientes == [] && busqueda == "" && filtro == "nombre"
      ensures !modalAbierto && clienteEditando == None && error == ""
    {
      clientes, busqueda, filtro := [], "", "nombre";
      modalAbierto, clienteEditando, error := false, None, "";
    }

    /** `fetchClientes`: the listed clients on success, otherwise the error line. */
    method Cargar(respuesta: Respuesta, data: seq<Cliente>)
      modifies this
      ensures respuesta == Exito ==> clientes == data && error == old(error)
      ensures respuesta.Rechazo? ==> clientes == old(clientes) && error == DetalleO(respuesta.detail, ErrorCarga)
      ensures respuesta == SinConexion ==> clientes == old(clientes) && error == ErrorConexionCarga
      ensures busqueda == old(busqueda) && filtro == old(filtro)
      ensures modalAbierto == old(modalAbierto) && clienteEditando == old(clienteEditando)
    {
      match respuesta
      case Exito => clientes := data;
      case Rechazo(detail) => error := DetalleO(detail, ErrorCarga);
      case SinConexion => error := ErrorConexionCarga;
    }

    function ClientesFiltrados(): seq<Cliente>
      reads this
    {
      Filtrados(clientes, filtro, busqueda)
    }

    /** The chart's single bar: how many clients are loaded, whatever the search. */
    function DatosGrafico(): (d: seq<int>)
      reads this
      ensures |d| == 1 && d[0] == |clientes| && d[0] >= |ClientesFiltrados()|
    {
      [|clientes|]
    }

    method CambiarBusqueda(texto: string)
      modifies this
      ensures busqueda == texto && clientes == old(clientes) && filtro == old(filtro)
      ensures modalAbierto == old(modalAbierto) && clienteEditando == old(clienteEditando) && error == old(error)
    {
      busqueda := texto;
    }

    method CambiarFiltro(campo: string)
      modifies this
      ensures filtro == campo && clientes == old(clientes) && busqueda == old(busqueda)
      ensures modalAbierto == old(modalAbierto) && clienteEditando == old(clienteEditando) && error == old(error)
    {
      filtro := campo;
    }

    method AbrirModalEdicion(c: Cliente)
      modifies this
      ensures Valid() && modalAbierto && clienteEditando == Some(c)
      ensures clientes == old(clientes) && busqueda == old(busqueda) && filtro == old(filtro) && error == old(error)
    {
      clienteEditando, modalAbierto := Some(c), true;
    }

    /** The dialog's cancel button closes it and discards nothing else: the edited
        client stays as it was until the next dialog opens. */
    method CerrarModal()
      modifies this
      ensures Valid() && !modalAbierto && clienteEditando == old(clienteEditando)
      ensures clientes == old(clientes) && busqueda == old(busqueda) && filtro == old(filtro) && error == old(error)
    {
      modalAbierto := false;
    }

    /** A change in the open dialog updates only the named field of the edited client. */
    method HandleChange(name: string, value: string)
      requires Valid() && modalAbierto
      modifies this
      ensures Valid() && modalAbierto
      ensures clienteEditando == Some(ConCampo(old(clienteEditando).value, name, value))
      ensures clientes == old(clientes) && busqueda == old(busqueda) && filtro == old(filtro) && error == old(error)
    {
      clienteEditando := Some(ConCampo(clienteEditando.value, name, value));
    }

    /** `guardarEdicion`: after an accepted update the list is reloaded (`actualizados`)
        and the dialog closes; otherwise the error line is set and the dialog stays. */
    method GuardarEdicion(respuesta: Respuesta, actualizados: seq<Cliente>)
      requires Valid()
      modifies this
      ensures Valid()
      ensures respuesta == Exito ==> clientes == actualizados && !modalAbierto && error == old(error)
      ensures respuesta.Rechazo? ==>
                clientes == old(clientes) && modalAbierto == old(modalAbierto)
                && error == DetalleO(respuesta.detail, ErrorActualizar)
      ensures respuesta == SinConexion ==>
                clientes == old(clientes) && modalAbierto == old(modalAbierto) && error == ErrorConexion
      ensures clienteEditando == old(clienteEditando) && busqueda == old(busqueda) && filtro == old(filtro)
    {
      match respuesta
      case Exito =>
        clientes := actualizados;
        modalAbierto := false;
      case Rechazo(detail) =>
        error := DetalleO(detail, ErrorActualizar);
      case SinConexion =>
        error := ErrorConexion;
    }

    /** `eliminarCliente`: a declined confirmation changes nothing; an accepted delete
        drops every client with that id from the local list; a failed one sets the error
        line and keeps the list. */
    method EliminarCliente(id: string, confirmado: bool, respuesta: Respuesta)
      modifies this
      ensures !confirmado ==> clientes == old(clientes) && error == old(error)
      ensures confirmado && respuesta == Exito ==> clientes == SinId(old(clientes), id) && error == old(error)
      ensures confirmado && respuesta.Rechazo? ==>
                clientes == old(clientes) && error == DetalleO(respuesta.detail, ErrorEliminar)
      ensures confirmado && respuesta == SinConexion ==> clientes == old(clientes) && error == ErrorConexion
      ensures busqueda == old(busqueda) && filtro == old(filtro)
      ensures modalAbierto == old(modalAbierto) && clienteEditando == old(clienteEditando)
    {
      if !confirmado {
        return;
      }
      match respuesta
      case Exito =>
        clientes := SinId(clientes, id);
      case Rechazo(detail) =>
        error := DetalleO(detail, ErrorEliminar);
      case SinConexion =>
        error := ErrorConexion;
    }
  }
}
