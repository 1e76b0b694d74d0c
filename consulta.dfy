/** The consumption page: a list of service records that the user adds to, deletes
    from and switches between "Activo" and "Inactivo", a text search over one chosen
    field plus a filter by estado, and the spending per client of the visible records. */
module Consulta {
  import opened Wrappers
  import opened Text
  import opened Seqs
  import opened Tally

  datatype Cliente = Cliente(id: string, nombre: string)
  datatype Vehiculo = Vehiculo(placa: string, marca: string, modelo: string)
  datatype ServicioCatalogo = ServicioCatalogo(id_servicio: string, nombre: string, precio: real)

  /** One row of the table. */
  datatype Registro = Registro(id_cliente: string, cliente_nombre: string, placa: string,
                               marca_modelo: string, nombre_servicio: string, costo: real,
                               fecha: string, estado: string)

  /** The "new record" form. */
  datatype Formulario = Formulario(id_cliente: string, placa: string, id_servicio: string,
                                   fecha: string, estado: string)

  const FormularioInicial := Formulario("", "", "", "", "Activo")

  /** `{ ...prev, [name]: value }` on the form; a name that is not one of its fields
      adds nothing the page reads. */
  function ConCampo(f: Formulario, name: string, value: string): (r: Formulario)
  {
    match name
    case "id_cliente" => f.(id_cliente := value)
    case "placa" => f.(placa := value)
    case "id_servicio" => f.(id_servicio := value)
    case "fecha" => f.(fecha := value)
    case "estado" => f.(estado := value)
    case _ => f
  }

  /** The form change writes the named field and leaves the other four as they were. */
  lemma ConCampoSoloEse(f: Formulario, name: string, value: string)
    ensures var r := ConCampo(f, name, value);
      && (r.id_cliente == if name == "id_cliente" then value else f.id_cliente)
      && (r.placa == if name == "placa" then value else f.placa)
      && (r.id_servicio == if name == "id_servicio" then value else f.id_servicio)
      && (r.fecha == if name == "fecha" then value else f.fecha)
      && (r.estado == if name == "estado" then value else f.estado)
  {
  }

  predicate Incompleto(f: Formulario)
  {
    f.id_cliente == "" || f.placa == "" || f.id_servicio == "" || f.fecha == ""
  }

  function BuscarCliente(clientes: seq<Cliente>, id: string): Option<Cliente>
  {
    Find(clientes, (c: Cliente) => c.id == id)
  }

  function BuscarVehiculo(vehiculos: seq<Vehiculo>, placa: string): Option<Vehiculo>
  {
    Find(vehiculos, (v: Vehiculo) => v.placa == placa)
  }

  function BuscarServicio(servicios: seq<ServicioCatalogo>, id: string): Option<ServicioCatalogo>
  {
    Find(servicios, (s: ServicioCatalogo) => s.id_servicio == id)
  }

  /** `r[filtro]` as text: the named field, and "" for a name that is not a text field
      of the record (the page starts with "cliente", which is none). */
  function Campo(r: Registro, filtro: string): string
  {
    match filtro
    case "id_cliente" => r.id_cliente
    case "cliente_nombre" => r.cliente_nombre
    case "placa" => r.placa
    case "marca_modelo" => r.marca_modelo
    case "nombre_servicio" => r.nombre_servicio
    case "fecha" => r.fecha
    case "estado" => r.estado
    case _ => ""
  }

  predicate EsCampo(filtro: string)
  {
    filtro in ["id_cliente", "cliente_nombre", "placa", "marca_modelo", "nombre_servicio", "fecha", "estado"]
  }

  /** The search test of `registrosFiltrados` on one record. */
  predicate Visible(r: Registro, busqueda: string, filtro: string, estadoFiltro: string)
  {
    Contains(Lower(Campo(r, filtro)), Lower(busqueda))
    && (estadoFiltro == "Todos" || r.estado == estadoFiltro)
  }

  function Filtrar(registro: seq<Registro>, busqueda: string, filtro: string, estadoFiltro: string): seq<Registro>
  {
    Filter(registro, (r: Registro) => Visible(r, busqueda, filtro, estadoFiltro))
  }

  /** The visible records are the records passing the search, in their original order
      and with their multiplicity. */
  lemma FiltrarSublista(registro: seq<Registro>, busqueda: string, filtro: string, estadoFiltro: string)
    ensures IsSublist(Filtrar(registro, busqueda, filtro, estadoFiltro), registro)
    ensures forall r :: r in Filtrar(registro, busqueda, filtro, estadoFiltro)
                        <==> r in registro && Visible(r, busqueda, filtro, estadoFiltro)
    ensures forall r :: multiset(Filtrar(registro, busqueda, filtro, estadoFiltro))[r]
                        == if Visible(r, busqueda, filtro, estadoFiltro) then multiset(registro)[r] else 0
  {
    FilterIsSublist(registro, (r: Registro) => Visible(r, busqueda, filtro, estadoFiltro));
    FilterMultiset(registro, (r: Registro) => Visible(r, busqueda, filtro, estadoFiltro));
  }

  /** An empty search with "Todos" shows every record. */
  lemma FiltrarTodo(registro: seq<Registro>, filtro: string)
    ensures Filtrar(registro, "", filtro, "Todos") == registro
  {
    forall r: Registro
      ensures Visible(r, "", filtro, "Todos")
    {
      ContainsEmpty(Lower(Campo(r, filtro)));
    }
    FilterAll(registro, (r: Registro) => Visible(r, "", filtro, "Todos"));
  }

  /** Searching a name that is not a text field of the record (the page's initial
      "cliente") hides every record as soon as the search text is not empty. */
  lemma FiltrarSinCampo(registro: seq<Registro>, busqueda: string, filtro: string, estadoFiltro: string)
    requires !EsCampo(filtro) && busqueda != ""
    ensures Filtrar(registro, busqueda, filtro, estadoFiltro) == []
  {
    var p := (r: Registro) => Visible(r, busqueda, filtro, estadoFiltro);
    forall i | 0 <= i < |registro|
      ensures !p(registro[i])
    {
      assert Campo(registro[i], filtro) == "";
      assert |Lower(busqueda)| > 0;
    }
    FilterNone(registro, p);
  }

  /** Where the record shown at row `index` sits in the whole list, or -1 when there is
      no such row. */
  function PosicionVisible(registro: seq<Registro>, busqueda: string, filtro: string, estadoFiltro: string,
                           index: int): int
  {
    FilterIndex(registro, (r: Registro) => Visible(r, busqueda, filtro, estadoFiltro), index)
  }

  /** The position found holds exactly the record shown at that row. */
  lemma PosicionVisibleSpec(registro: seq<Registro>, busqueda: string, filtro: string, estadoFiltro: string,
                            index: int)
    ensures var k := PosicionVisible(registro, busqueda, filtro, estadoFiltro, index);
      var shown := Filtrar(registro, busqueda, filtro, estadoFiltro);
      && (0 <= index < |shown| ==> 0 <= k < |registro| && registro[k] == shown[index])
      && (!(0 <= index < |shown|) ==> k == -1)
  {
    FilterIndexSpec(registro, (r: Registro) => Visible(r, busqueda, filtro, estadoFiltro), index);
  }

  /** Deleting at that position takes exactly that row off the visible list. */
  lemma EliminarPosicionVisible(registro: seq<Registro>, busqueda: string, filtro: string, estadoFiltro: string,
                                index: int)
    ensures Filtrar(DropIndex(registro, PosicionVisible(registro, busqueda, filtro, estadoFiltro, index)),
                    busqueda, filtro, estadoFiltro)
            == DropIndex(Filtrar(registro, busqueda, filtro, estadoFiltro), index)
  {
    FilterDropIndex(registro, (r: Registro) => Visible(r, busqueda, filtro, estadoFiltro), index);
  }

  /** `toggleEstado` on one record. */
  function Alternar(r: Registro): Registro
  {
    r.(estado := if r.estado == "Activo" then "Inactivo" else "Activo")
  }

  /** Switching changes only the estado; switching twice restores an "Activo" or
      "Inactivo" record, and any other estado becomes "Activo". */
  lemma AlternarDosVeces(r: Registro)
    ensures Alternar(r).(estado := r.estado) == r
    ensures Alternar(r).estado == (if r.estado == "Activo" then "Inactivo" else "Activo")
    ensures r.estado == "Activo" || r.estado == "Inactivo" ==> Alternar(Alternar(r)) == r
    ensures Alternar(r).estado == "Activo" || Alternar(r).estado == "Inactivo"
  {
  }

  /** What `agregarRegistro` did. */
  datatype Alta = CamposIncompletos | NoEncontrado | Agregado

  function ClienteNombre(r: Registro): string { r.cliente_nombre }
  function Costo(r: Registro): real { r.costo }

  /** Spending per client: one entry per client name among `filtrados` in first-seen
      order, each the sum of that client's costs, adding up to the total cost shown. */
  method CalcularTotal(filtrados: seq<Registro>) returns (labels: seq<string>, data: seq<real>)
    ensures labels == FirstSeen(Map(ClienteNombre, filtrados))
    ensures |data| == |labels|
    ensures forall j :: 0 <= j < |labels| ==>
              data[j] == SumFor(Map(ClienteNombre, filtrados), Map(Costo, filtrados), labels[j])
    ensures Sum(data) == Sum(Map(Costo, filtrados))
  {
    labels, data := SumByKey(Map(ClienteNombre, filtrados), Map(Costo, filtrados));
  }

  /** A concrete screen on which the delete button of the only visible row, as written,
      deletes a different record and leaves the visible one in place. */
  lemma EliminarFiltradoDemo()
    ensures var ana := Registro("1", "Ana", "AAA111", "Mazda 3", "Cambio de Aceite", 30.0, "2024-05-01", "Activo");
      var beto := Registro("2", "Beto", "BBB222", "Kia Rio", "Cambio de Aceite", 30.0, "2024-05-02", "Activo");
      && Filtrar([ana, beto], "beto", "cliente_nombre", "Todos") == [beto]
      && DropIndex([ana, beto], 0) == [beto]
      && Filtrar(DropIndex([ana, beto], 0), "beto", "cliente_nombre", "Todos") == [beto]
      && Alternar([ana, beto][0]) != beto
  {
    var ana := Registro("1", "Ana", "AAA111", "Mazda 3", "Cambio de Aceite", 30.0, "2024-05-01", "Activo");
    var beto := Registro("2", "Beto", "BBB222", "Kia Rio", "Cambio de Aceite", 30.0, "2024-05-02", "Activo");
    assert Lower("Beto") == "beto";
    assert OccursAt(Lower("Beto"), Lower("beto"), 0);
    assert !Visible(ana, "beto", "cliente_nombre", "Todos");
    assert Visible(beto, "beto", "cliente_nombre", "Todos");
    assert [ana, beto][1..] == [beto];
    assert DropIndex([ana, beto], 0) == [beto];
  }

  class ConsultaPage {
    var clientes: seq<Cliente>
    var vehiculos: seq<Vehiculo>
    var servicios: seq<ServicioCatalogo>
    var registro: seq<Registro>
    var nuevoRegistro: Formulario
    var busqueda: string
    var filtro: string
    var estadoFiltro: string

    /** The page with the clients, the chosen client's vehicles and the services the
        backend returned. */
    constructor(clientes: seq<Cliente>, vehiculos: seq<Vehiculo>, servicios: seq<ServicioCatalogo>)
      ensures this.clientes == clientes && this.vehiculos == vehiculos && this.servicios == servicios
      ensures registro == [] && nuevoRegistro == FormularioInicial
      ensures busqueda == "" && filtro == "cliente" && estadoFiltro == "Todos"
    {
      this.clientes, this.vehiculos, this.servicios := clientes, vehiculos, servicios;
      registro, nuevoRegistro := [], FormularioInicial;
      busqueda, filtro, estadoFiltro := "", "cliente", "Todos";
    }

    function RegistrosFiltrados(): seq<Registro>
      reads this
    {
      Filtrar(registro, busqueda, filtro, estadoFiltro)
    }

    method HandleChange(name: string, value: string)
      modifies this
      ensures clientes == old(clientes) && vehiculos == old(vehiculos) && servicios == old(servicios)
      ensures nuevoRegistro == ConCampo(old(nuevoRegistro), name, value)
      ensures registro == old(registro) && busqueda == old(busqueda)
      ensures filtro == old(filtro) && estadoFiltro == old(estadoFiltro)
    {
      nuevoRegistro := ConCampo(nuevoRegistro, name, value);
    }

    /** Choosing a client reloads its vehicles from `/vehiculos/por-cliente/{id}`:
        `lista` is the decoded list when the request succeeds and `None` when it is
        refused or fails. With no client chosen nothing is requested and nothing
        changes. */
    method CargarVehiculos(lista: Option<seq<Vehiculo>>)
      modifies this
      ensures vehiculos == if old(nuevoRegistro).id_cliente == "" then old(vehiculos)
                           else if lista.Some? then lista.value else []
      ensures clientes == old(clientes) && servicios == old(servicios)
      ensures registro == old(registro) && nuevoRegistro == old(nuevoRegistro)
      ensures busqueda == old(busqueda) && filtro == old(filtro) && estadoFiltro == old(estadoFiltro)
    {
      if nuevoRegistro.id_cliente == "" {
        return;
      }
      vehiculos := if lista.Some? then lista.value else [];
    }

    method CambiarBusqueda(b: string)
      modifies this
      ensures clientes == old(clientes) && vehiculos == old(vehiculos) && servicios == old(servicios)
      ensures busqueda == b && filtro == old(filtro) && estadoFiltro == old(estadoFiltro)
      ensures registro == old(registro) && nuevoRegistro == old(nuevoRegistro)
    {
      busqueda := b;
    }

    method CambiarFiltro(f: string)
      modifies this
      ensures clientes == old(clientes) && vehiculos == old(vehiculos) && servicios == old(servicios)
      ensures filtro == f && busqueda == old(busqueda) && estadoFiltro == old(estadoFiltro)
      ensures registro == old(registro) && nuevoRegistro == old(nuevoRegistro)
    {
      filtro := f;
    }

    method CambiarEstadoFiltro(e: string)
      modifies this
      ensures clientes == old(clientes) && vehiculos == old(vehiculos) && servicios == old(servicios)
      ensures estadoFiltro == e && busqueda == old(busqueda) && filtro == old(filtro)
      ensures registro == old(registro) && nuevoRegistro == old(nuevoRegistro)
    {
      estadoFiltro := e;
    }

    /** An incomplete form or a failed lookup changes nothing; otherwise one record
        built from the form and the three lookups goes at the end, and the form keeps
        only the client and the estado. */
    method AgregarRegistro() returns (alta: Alta)
      modifies this
      ensures clientes == old(clientes) && vehiculos == old(vehiculos) && servicios == old(servicios)
      ensures alta == CamposIncompletos <==> Incompleto(old(nuevoRegistro))
      ensures alta == NoEncontrado <==>
                !Incompleto(old(nuevoRegistro))
                && (BuscarCliente(clientes, old(nuevoRegistro).id_cliente).None?
                    || BuscarVehiculo(vehiculos, old(nuevoRegistro).placa).None?
                    || BuscarServicio(servicios, old(nuevoRegistro).id_servicio).None?)
      ensures alta != Agregado ==> registro == old(registro) && nuevoRegistro == old(nuevoRegistro)
      ensures alta == Agregado ==>
                var f := old(nuevoRegistro);
                var c := BuscarCliente(clientes, f.id_cliente).value;
                var v := BuscarVehiculo(vehiculos, f.placa).value;
                var s := BuscarServicio(servicios, f.id_servicio).value;
                && registro == old(registro) + [Registro(f.id_cliente, c.nombre, v.placa,
                                                         v.marca + " " + v.modelo, s.nombre,
                                                         s.precio, f.fecha, f.estado)]
                && nuevoRegistro == f.(placa := "", id_servicio := "", fecha := "")
      ensures busqueda == old(busqueda) && filtro == old(filtro) && estadoFiltro == old(estadoFiltro)
    {
      var f := nuevoRegistro;
      if f.id_cliente == "" || f.placa == "" || f.id_servicio == "" || f.fecha == "" {
        return CamposIncompletos;
      }
      var cliente := BuscarCliente(clientes, f.id_cliente);
      var vehiculo := BuscarVehiculo(vehiculos, f.placa);
      var servicio := BuscarServicio(servicios, f.id_servicio);
      if cliente.None? || vehiculo.None? || servicio.None? {
        return NoEncontrado;
      }
      var nuevo := Registro(f.id_cliente, cliente.value.nombre, vehiculo.value.placa,
                            vehiculo.value.marca + " " + vehiculo.value.modelo,
                            servicio.value.nombre, servicio.value.precio, f.fecha, f.estado);
      registro := registro + [nuevo];
      nuevoRegistro := f.(placa := "", id_servicio := "", fecha := "");
      alta := Agregado;
    }

    /** As written: the row's delete button passes its position in the visible list,
        and the record at that position of the whole list goes, if confirmed. */
    method HandleEliminar(index: int, confirmado: bool)
      modifies this
      ensures clientes == old(clientes) && vehiculos == old(vehiculos) && servicios == old(servicios)
      ensures registro == if confirmado && 0 <= index < |old(registro)|
                          then old(registro)[..index] + old(registro)[index + 1..]
                          else old(registro)
      ensures nuevoRegistro == old(nuevoRegistro) && busqueda == old(busqueda)
      ensures filtro == old(filtro) && estadoFiltro == old(estadoFiltro)
    {
      if confirmado {
        DropIndexSpec(registro, index);
        registro := DropIndex(registro, index);
      }
    }

    /** As written: the record at `index` of the whole list switches estado; every other
        record stays as it was. */
    method ToggleEstado(index: int)
      modifies this
      ensures clientes == old(clientes) && vehiculos == old(vehiculos) && servicios == old(servicios)
      ensures |registro| == |old(registro)|
      ensures forall i :: 0 <= i < |registro| ==>
                registro[i] == if i == index then Alternar(old(registro)[i]) else old(registro)[i]
      ensures nuevoRegistro == old(nuevoRegistro) && busqueda == old(busqueda)
      ensures filtro == old(filtro) && estadoFiltro == old(estadoFiltro)
    {
      if 0 <= index < |registro| {
        registro := registro[index := Alternar(registro[index])];
      }
    }

    /** Corrected: the delete button of visible row `index` removes that very record,
        so the visible list loses exactly that row. */
    method EliminarVisible(index: int, confirmado: bool)
      modifies this
      ensures clientes == old(clientes) && vehiculos == old(vehiculos) && servicios == old(servicios)
      ensures registro == if confirmado
                          then DropIndex(old(registro), PosicionVisible(old(registro), busqueda, filtro, estadoFiltro, index))
                          else old(registro)
      ensures confirmado ==> RegistrosFiltrados() == DropIndex(old(RegistrosFiltrados()), index)
      ensures nuevoRegistro == old(nuevoRegistro) && busqueda == old(busqueda)
      ensures filtro == old(filtro) && estadoFiltro == old(estadoFiltro)
    {
      if confirmado {
        EliminarPosicionVisible(registro, busqueda, filtro, estadoFiltro, index);
        registro := DropIndex(registro, PosicionVisible(registro, busqueda, filtro, estadoFiltro, index));
      }
    }

    /** Corrected: the switch of visible row `index` changes the estado of that very
        record; every other record stays as it was. */
    method AlternarVisible(index: int)
      modifies this
      ensures clientes == old(clientes) && vehiculos == old(vehiculos) && servicios == old(servicios)
      ensures var k := PosicionVisible(old(registro), busqueda, filtro, estadoFiltro, index);
        registro == if 0 <= k < |old(registro)| then old(registro)[k := Alternar(old(registro)[k])] else old(registro)
      ensures var k := PosicionVisible(old(registro), busqueda, filtro, estadoFiltro, index);
        0 <= index < |old(RegistrosFiltrados())| ==>
          0 <= k < |old(registro)| && old(registro)[k] == old(RegistrosFiltrados())[index]
      ensures !(0 <= index < |old(RegistrosFiltrados())|) ==> registro == old(registro)
      ensures nuevoRegistro == old(nuevoRegistro) && busqueda == old(busqueda)
      ensures filtro == old(filtro) && estadoFiltro == old(estadoFiltro)
    {
      PosicionVisibleSpec(registro, busqueda, filtro, estadoFiltro, index);
      var k := PosicionVisible(registro, busqueda, filtro, estadoFiltro, index);
      if 0 <= k < |registro| {
        registro := registro[k := Alternar(registro[k])];
      }
    }
  }
}
