# TallerTech, modelled in Dafny

TallerTech manages a car repair workshop. React pages in the browser register clients and
vehicles, book appointments, record inspections and diagnostics, build invoices and draw
reports. A FastAPI backend keeps the tables of clients, vehicles, services, diagnostics
and diagnostic details. This project models the logic of those pages and routers and
proves what each of them promises.

How the model is laid out:

- **Pages become classes.** Each page whose handlers replace React state is a class. Its
  fields are the state variables, held as values (`seq`, `map`, datatypes). Its methods
  are the handlers, with `modifies this`, and each states the whole new state.
- **Pure parts become functions.** Filters, lookups, totals and payload builders are
  functions. Lemmas state their properties.
- **Loops stay loops.** The source's loops are methods with `while` loops proved against
  those functions:
  - the `forEach` pushes of `getRecomendaciones`;
  - the dictionary tallies of the reports and of `calcularTotal`;
  - the checklist `reduce`;
  - the detail posts of an inspection;
  - the seeding and bulk-insert loops of the backend.
- **The date sort works in place.** `citas.sort` is an insertion sort on an `array`,
  proved sorted and a permutation.
- **Each router is a module.** The database is one class, `Api.BaseDeDatos`, with one
  `map` per table keyed by its primary key. Each handler returns a `Resultado`: the body,
  or a status code with its detail text.
- **The world comes in as parameters.** The rows a query returns, and their order,
  arrive as a key sequence `orden` that lists every key once (`Api.Enumera`). So do:
  - how a request ended (`Http.Respuesta`);
  - the answer to a `confirm()`;
  - generated ids;
  - today's date.

Shared modules:

- `Seqs`: filter, map, find, drop-at-index, sums, sublists.
- `Tally`: insertion-ordered dictionaries as parallel sequences.
- `Text`: lower-casing, substring and the email pattern.
- `Fechas`: ISO dates and their order.
- `Wrappers`: `Option`.
- `Http`: how a request ended.

## Model

| member | source | states |
|---|---|---|
| Diagnostico.Nombre | frontend/gestion-clientes-frontend/src/pages/DiagnosticoVehiculo.jsx:116-122 | Every wheel name has eleven characters, which keeps the messages of different rules apart |
| Diagnostico.NombreRueda | frontend/gestion-clientes-frontend/src/pages/DiagnosticoVehiculo.jsx:119 | The wheel name equals the key run through the replace-capitals-with-space rewrite |
| Diagnostico.NombreInyectivo | frontend/gestion-clientes-frontend/src/pages/DiagnosticoVehiculo.jsx:116-133 | Different wheels have different names, so the messages of two wheels never coincide |
| Diagnostico.TextoInyectivo | frontend/gestion-clientes-frontend/src/pages/DiagnosticoVehiculo.jsx:113-145 | Different recommendations render as different messages |
| Diagnostico.TextosMiembro | frontend/gestion-clientes-frontend/src/pages/DiagnosticoVehiculo.jsx:113-145 | A message is in the rendered list exactly when its recommendation is in the rule list |
| Diagnostico.MensajesFijosDistintos | frontend/gestion-clientes-frontend/src/pages/DiagnosticoVehiculo.jsx:135-142 | The motor, battery, brake-pad and warning messages are pairwise different |
| Diagnostico.RecomendacionesInflar | frontend/gestion-clientes-frontend/src/pages/DiagnosticoVehiculo.jsx:116-122 | The inflate-to-30-PSI message for a tyre appears exactly when its pressure is "Baja" |
| Diagnostico.RecomendacionesAlinear | frontend/gestion-clientes-frontend/src/pages/DiagnosticoVehiculo.jsx:124-133 | The alignment message for a wheel appears exactly when the absolute camber exceeds 1.0 |
| Diagnostico.AlineacionLimite | frontend/gestion-clientes-frontend/src/pages/DiagnosticoVehiculo.jsx:124-133 | A camber of exactly 1.0 or -1.0 gives no alignment message |
| Diagnostico.RecomendacionesComponentes | frontend/gestion-clientes-frontend/src/pages/DiagnosticoVehiculo.jsx:135-142 | The motor, battery and brake-pad messages appear exactly for "Falla", "Baja" and "Desgastados"; the warning appears exactly when the prior inspection has "Frenos" as "cambiar" and frenos is "Normal" |
| Diagnostico.SinInspeccionSinAdvertencia | frontend/gestion-clientes-frontend/src/pages/DiagnosticoVehiculo.jsx:140-142 | Without a prior inspection the brake warning never appears |
| Diagnostico.RecomendacionesOrdenadas | frontend/gestion-clientes-frontend/src/pages/DiagnosticoVehiculo.jsx:113-145 | Messages come without repetition in the fixed order: tyres by position, alignment by position, then motor, battery, brake pads, warning |
| Diagnostico.SinProblemas | frontend/gestion-clientes-frontend/src/pages/DiagnosticoVehiculo.jsx:113-145 | With all tyres "Normal", all cambers within 1.0 and all components "Normal", the list is empty, or only the brake warning when the prior inspection asked to change the brakes |
| Diagnostico.InicialSinRecomendaciones | frontend/gestion-clientes-frontend/src/pages/DiagnosticoVehiculo.jsx:27-43 | The initial state is all "Normal" with cambers 0.5, -0.3, 0.7, -0.4 and gives no message exactly when the prior inspection did not ask to change the brakes, and none at all without an inspection |
| Diagnostico.MensajesInflado | frontend/gestion-clientes-frontend/src/pages/DiagnosticoVehiculo.jsx:116-122 | The first forEach loop pushes the rendered tyre rules, in position order |
| Diagnostico.MensajesAlineacion | frontend/gestion-clientes-frontend/src/pages/DiagnosticoVehiculo.jsx:124-133 | The second forEach loop appends the rendered alignment rules, in position order, after the tyre messages |
| Diagnostico.MensajesRuedas | frontend/gestion-clientes-frontend/src/pages/DiagnosticoVehiculo.jsx:116-133 | Both loops together give the tyre messages followed by the alignment messages |
| Diagnostico.Set | frontend/gestion-clientes-frontend/src/pages/DiagnosticoVehiculo.jsx:65-83 | Setting one wheel's value changes that wheel only |
| Diagnostico.Detalles | frontend/gestion-clientes-frontend/src/pages/DiagnosticoVehiculo.jsx:149-180 | Exactly 11 rows under one diagnostic id: motor, bateria, frenos (1 for Falla/Baja/Desgastados, else 0), four presion rows (25 for "Baja", else 30), four alineacion rows holding the angle, each with its own id |
| Diagnostico.FilasPresion | frontend/gestion-clientes-frontend/src/pages/DiagnosticoVehiculo.jsx:168-173 | One pressure row per wheel in wheel order, with value 25 or 30 |
| Diagnostico.FilasAlineacion | frontend/gestion-clientes-frontend/src/pages/DiagnosticoVehiculo.jsx:174-179 | One alignment row per wheel in wheel order, holding the measured angle |
| Diagnostico.DetallesIdaYVuelta | frontend/gestion-clientes-frontend/src/pages/DiagnosticoVehiculo.jsx:149-180 | For any state the selectors can produce, reading the rows back gives that state again |
| Diagnostico.DiagnosticoPage.constructor | frontend/gestion-clientes-frontend/src/pages/DiagnosticoVehiculo.jsx:27-56 | The page starts from the initial state; the prior inspection is kept only when a vehicle was passed on |
| Diagnostico.DiagnosticoPage.HandleChange | frontend/gestion-clientes-frontend/src/pages/DiagnosticoVehiculo.jsx:58-63 | Only the addressed component changes |
| Diagnostico.DiagnosticoPage.HandleNeumaticoChange | frontend/gestion-clientes-frontend/src/pages/DiagnosticoVehiculo.jsx:65-73 | Only that tyre's pressure changes |
| Diagnostico.DiagnosticoPage.HandleBalanceoChange | frontend/gestion-clientes-frontend/src/pages/DiagnosticoVehiculo.jsx:75-83 | Only that wheel's camber changes |
| Diagnostico.DiagnosticoPage.GetRecomendaciones | frontend/gestion-clientes-frontend/src/pages/DiagnosticoVehiculo.jsx:113-145 | The pushed messages are the rendered rule list |
| Diagnostico.DiagnosticoPage.Siguiente | frontend/gestion-clientes-frontend/src/pages/DiagnosticoVehiculo.jsx:147-229 | With messages pending and no confirmation nothing is posted; otherwise the payload carries the id, plate, date and the 11 detail rows |
| Facturacion.Agregado | frontend/gestion-clientes-frontend/src/pages/Facturacion.jsx:40-44 | A service whose name is already selected changes nothing; any other is appended at the end |
| Facturacion.AgregadoIdempotente | frontend/gestion-clientes-frontend/src/pages/Facturacion.jsx:40-44 | Adding a service twice is adding it once |
| Facturacion.AgregadoDistintos | frontend/gestion-clientes-frontend/src/pages/Facturacion.jsx:41-43 | Selected names stay pairwise distinct |
| Facturacion.SubtotalAgregar | frontend/gestion-clientes-frontend/src/pages/Facturacion.jsx:52 | The subtotal of nothing is 0, and each service adds its price |
| Facturacion.SubtotalConcat | frontend/gestion-clientes-frontend/src/pages/Facturacion.jsx:52 | The subtotal of two selections one after the other is the sum of their subtotals |
| Facturacion.SubtotalEliminar | frontend/gestion-clientes-frontend/src/pages/Facturacion.jsx:47-52 | Removing row i lowers the subtotal by exactly that service's price |
| Facturacion.TotalAgregar | frontend/gestion-clientes-frontend/src/pages/Facturacion.jsx:40-54 | Adding a service not yet selected raises the total by 1.16 times its price; adding one already selected leaves the total unchanged |
| Facturacion.TotalEliminar | frontend/gestion-clientes-frontend/src/pages/Facturacion.jsx:47-54 | Removing row i lowers the total by 1.16 times that service's price |
| Facturacion.SubtotalNoSuperaTotal | frontend/gestion-clientes-frontend/src/pages/Facturacion.jsx:52-54 | With non-negative prices, 0 <= subtotal <= total |
| Facturacion.FacturacionPage.constructor | frontend/gestion-clientes-frontend/src/pages/Facturacion.jsx:24-29 | Nothing selected |
| Facturacion.FacturacionPage.SeleccionarCliente | frontend/gestion-clientes-frontend/src/pages/Facturacion.jsx:116 | Only the client selection changes |
| Facturacion.FacturacionPage.SeleccionarVehiculo | frontend/gestion-clientes-frontend/src/pages/Facturacion.jsx:124 | Only the vehicle selection changes |
| Facturacion.FacturacionPage.AgregarServicio | frontend/gestion-clientes-frontend/src/pages/Facturacion.jsx:40-44 | The selection becomes the deduplicated append; nothing else changes |
| Facturacion.FacturacionPage.EliminarServicio | frontend/gestion-clientes-frontend/src/pages/Facturacion.jsx:47-49 | Exactly row i goes and the rest keep their order; an index out of range changes nothing |
| Facturacion.FacturacionPage.GenerarPdf | frontend/gestion-clientes-frontend/src/pages/Facturacion.jsx:57-71 | No invoice without a client, a vehicle and a service; otherwise it lists the selection with subtotal, tax and total = 1.16 x subtotal |
| Reports.FiltrarPorFecha | frontend/gestion-clientes-frontend/src/pages/Reports.jsx:32-38 | Without both ends the list is kept whole; with both, exactly the records with inicio <= fecha <= fin remain, in order |
| Reports.FiltrarNada | frontend/gestion-clientes-frontend/src/pages/Reports.jsx:32-38 | A range that excludes every record keeps none |
| Reports.Graficar | frontend/gestion-clientes-frontend/src/pages/Reports.jsx:43-76 | Bar labels are the distinct services in first-seen order, each count >= 1, counts summing to the number of records; pie labels are the distinct months in first-seen order, each the month's cost sum, summing to the total cost |
| Reports.FetchData | frontend/gestion-clientes-frontend/src/pages/Reports.jsx:32-76 | The charts are drawn from the filtered records; an empty filtered list gives empty charts |
| Tally.CountByKey | frontend/gestion-clientes-frontend/src/pages/Reports.jsx:43-46 | The counting loop: labels are the first-seen keys, each count is the key's number of occurrences and at least 1, and the counts add up to the length |
| Tally.SumByKey | frontend/gestion-clientes-frontend/src/pages/Reports.jsx:60-65 | The summing loop: labels are the first-seen keys, each total is the key's cost sum, and the totals add up to the overall sum |
| Fechas.FechaCronologica | frontend/gestion-clientes-frontend/src/pages/Reports.jsx:34-37 | For well-formed ISO dates, comparing the strings compares the days |
| Fechas.LexLeTotal | frontend/gestion-clientes-frontend/src/pages/AgendarCita.jsx:195 | Any two dates are ordered one way or the other |
| Fechas.LexLeTransitive | frontend/gestion-clientes-frontend/src/pages/AgendarCita.jsx:195 | The date order is transitive |
| Fechas.LexLeAntisymmetric | frontend/gestion-clientes-frontend/src/pages/AgendarCita.jsx:195 | Two dates ordered both ways are equal |
| Consulta.ConCampoSoloEse | frontend/gestion-clientes-frontend/src/pages/Consulta.jsx:77-80 | A form change writes the named field; the other fields stay |
| Consulta.FiltrarSublista | frontend/gestion-clientes-frontend/src/pages/Consulta.jsx:133-140 | The visible records are an order-preserving sublist, a record is visible exactly when it passes the search and estado filter, and a visible record appears as many times as in the whole list |
| Consulta.FiltrarTodo | frontend/gestion-clientes-frontend/src/pages/Consulta.jsx:133-140 | An empty search with "Todos" shows every record |
| Consulta.FiltrarSinCampo | frontend/gestion-clientes-frontend/src/pages/Consulta.jsx:22 | Searching a non-empty text in a name that is not a text field (the initial filter "cliente") shows nothing |
| Consulta.AlternarDosVeces | frontend/gestion-clientes-frontend/src/pages/Consulta.jsx:123-131 | Switching changes only the estado: "Activo" becomes "Inactivo" and anything else "Activo"; twice restores an "Activo" or "Inactivo" record |
| Consulta.CalcularTotal | frontend/gestion-clientes-frontend/src/pages/Consulta.jsx:142-148 | One entry per client name in first-seen order, each that client's total cost, the entries adding up to the shown total |
| Consulta.PosicionVisibleSpec | frontend/gestion-clientes-frontend/src/pages/Consulta.jsx:245-255 | The position found for visible row i holds exactly the record shown there; no row gives -1 |
| Consulta.EliminarPosicionVisible | frontend/gestion-clientes-frontend/src/pages/Consulta.jsx:245-255 | Deleting at that position removes exactly that row from the visible list |
| Consulta.EliminarFiltradoDemo | frontend/gestion-clientes-frontend/src/pages/Consulta.jsx:245-255 | With two records and only the second visible, the first row's delete, as written, removes the hidden record and leaves the visible one |
| Consulta.ConsultaPage.constructor | frontend/gestion-clientes-frontend/src/pages/Consulta.jsx:13-23 | No records, the initial form with estado "Activo", empty search, filter "cliente", estado filter "Todos" |
| Consulta.ConsultaPage.CargarVehiculos | frontend/gestion-clientes-frontend/src/pages/Consulta.jsx:42-59 | With no client chosen nothing changes; otherwise the vehicle list becomes the fetched list on success and empty on failure, and nothing else changes |
| Consulta.ConsultaPage.HandleChange | frontend/gestion-clientes-frontend/src/pages/Consulta.jsx:77-80 | Only the form changes, by the named field |
| Consulta.ConsultaPage.CambiarBusqueda | frontend/gestion-clientes-frontend/src/pages/Consulta.jsx:216 | Only the search text changes |
| Consulta.ConsultaPage.CambiarFiltro | frontend/gestion-clientes-frontend/src/pages/Consulta.jsx:218 | Only the searched field changes |
| Consulta.ConsultaPage.CambiarEstadoFiltro | frontend/gestion-clientes-frontend/src/pages/Consulta.jsx:223 | Only the estado filter changes |
| Consulta.ConsultaPage.AgregarRegistro | frontend/gestion-clientes-frontend/src/pages/Consulta.jsx:82-115 | An incomplete form or a failed client, vehicle or service lookup changes nothing; otherwise one record with the service price and the form's estado goes at the end, and placa, servicio and fecha clear |
| Consulta.ConsultaPage.HandleEliminar | frontend/gestion-clientes-frontend/src/pages/Consulta.jsx:117-121 | As written: when confirmed, exactly index i of the whole list goes; declining changes nothing |
| Consulta.ConsultaPage.ToggleEstado | frontend/gestion-clientes-frontend/src/pages/Consulta.jsx:123-131 | As written: only the record at index i of the whole list switches estado |
| Consulta.ConsultaPage.EliminarVisible | frontend/gestion-clientes-frontend/src/pages/Consulta.jsx:117-121 | Corrected: the confirmed delete of visible row i removes that very record, so the visible list loses exactly row i |
| Consulta.ConsultaPage.AlternarVisible | frontend/gestion-clientes-frontend/src/pages/Consulta.jsx:123-131 | Corrected: the switch of visible row i changes the estado of that very record and nothing else |
| Inspeccion.PartesDistintas | frontend/gestion-clientes-frontend/src/pages/InspeccionVehiculo.jsx:9-13 | The catalog has 10 distinct parts |
| Inspeccion.MapaVacio | frontend/gestion-clientes-frontend/src/pages/InspeccionVehiculo.jsx:19-30 | The reduce builds a map with exactly the given parts, each set to "" |
| Inspeccion.CompletaSiNingunaVacia | frontend/gestion-clientes-frontend/src/pages/InspeccionVehiculo.jsx:63 | On a map holding every part, the checklist is complete exactly when no estado is "" |
| Inspeccion.CompletaCasosLimite | frontend/gestion-clientes-frontend/src/pages/InspeccionVehiculo.jsx:63 | The initial checklist is incomplete; a map without the parts counts as complete |
| Inspeccion.InspeccionPage.constructor | frontend/gestion-clientes-frontend/src/pages/InspeccionVehiculo.jsx:15-31 | Nothing selected, unsigned, both maps hold exactly the 10 parts set to "" |
| Inspeccion.InspeccionPage.SeleccionarCliente | frontend/gestion-clientes-frontend/src/pages/InspeccionVehiculo.jsx:44-57 | The client changes and the vehicle list becomes that client's, or empty when cleared |
| Inspeccion.InspeccionPage.SeleccionarVehiculo | frontend/gestion-clientes-frontend/src/pages/InspeccionVehiculo.jsx:148 | Only the vehicle selection changes |
| Inspeccion.InspeccionPage.CambiarFirma | frontend/gestion-clientes-frontend/src/pages/InspeccionVehiculo.jsx:204 | Only the signature flag changes |
| Inspeccion.InspeccionPage.HandleSelectChange | frontend/gestion-clientes-frontend/src/pages/InspeccionVehiculo.jsx:59-61 | Only that part's estado changes; both maps keep every part |
| Inspeccion.InspeccionPage.HandleObservacionChange | frontend/gestion-clientes-frontend/src/pages/InspeccionVehiculo.jsx:190 | Only that part's observation changes |
| Inspeccion.InspeccionPage.HandleSiguiente | frontend/gestion-clientes-frontend/src/pages/InspeccionVehiculo.jsx:65-125 | The checks run in order (selection, signature, confirmation of an incomplete list) and the first failure ends it; a failed header post sends no detail; otherwise one detail per part in catalog order under the header id, then the navigation state |
| Perfil.PerfilInicialValores | frontend/gestion-clientes-frontend/src/pages/PerfilTaller.jsx:8-20 | The profile starts as "General", with no services, open 08:00 to 18:00, and empty text fields |
| Perfil.EspecializacionesConCatalogo | frontend/gestion-clientes-frontend/src/pages/PerfilTaller.jsx:54-72 | Every specialization offered has a service catalog |
| Perfil.ConCampoSoloEse | frontend/gestion-clientes-frontend/src/pages/PerfilTaller.jsx:38-41 | A text change writes the named field only; the services stay |
| Perfil.AlternarPertenencia | frontend/gestion-clientes-frontend/src/pages/PerfilTaller.jsx:83-90 | The toggled service is offered afterwards exactly when it was not before; every other service keeps its status |
| Perfil.AlternarDosVeces | frontend/gestion-clientes-frontend/src/pages/PerfilTaller.jsx:85-87 | Toggling an absent service twice gives back the list |
| Perfil.AlternarSinRepetidos | frontend/gestion-clientes-frontend/src/pages/PerfilTaller.jsx:85-87 | A list without repetitions stays without repetitions |
| Perfil.AlternarDentroDelCatalogo | frontend/gestion-clientes-frontend/src/pages/PerfilTaller.jsx:64-90 | Toggling a catalog service keeps the offer within the current catalog |
| Perfil.PerfilTallerPage.constructor | frontend/gestion-clientes-frontend/src/pages/PerfilTaller.jsx:8-20 | The page starts on the initial profile |
| Perfil.PerfilTallerPage.HandleChange | frontend/gestion-clientes-frontend/src/pages/PerfilTaller.jsx:38-41 | The profile changes by the named field |
| Perfil.PerfilTallerPage.HandleEspecializacionChange | frontend/gestion-clientes-frontend/src/pages/PerfilTaller.jsx:74-81 | The specialization is set and the services empty; every other field stays |
| Perfil.PerfilTallerPage.HandleServiciosChange | frontend/gestion-clientes-frontend/src/pages/PerfilTaller.jsx:83-90 | The services become the toggled list; every other field stays |
| Agendar.VehiculosDe | frontend/gestion-clientes-frontend/src/pages/AgendarCita.jsx:46-53 | The first matching client's vehicles, or none with no selection, an unknown client or no stored list |
| Agendar.NombreCliente | frontend/gestion-clientes-frontend/src/pages/AgendarCita.jsx:56-59 | The first matching client's name, else "Desconocido" |
| Agendar.DelDia | frontend/gestion-clientes-frontend/src/pages/AgendarCita.jsx:108 | Exactly the appointments dated today, in order, each as many times as it is listed |
| Agendar.CorreoValidoEsCorreo | frontend/gestion-clientes-frontend/src/pages/AgendarCita.jsx:167-176 | An email the appointment form's pattern accepts also passes the registration form's email test |
| Agendar.CorreoYTelefonoEjemplos | frontend/gestion-clientes-frontend/src/pages/AgendarCita.jsx:167-187 | "a" fails the email pattern and "12" the phone pattern; "ana@taller.co" and "3001234567" pass |
| Agendar.OrdenadaTodos | frontend/gestion-clientes-frontend/src/pages/AgendarCita.jsx:195 | Sorted neighbour by neighbour means sorted between any two positions |
| Agendar.Insertar | frontend/gestion-clientes-frontend/src/pages/AgendarCita.jsx:195 | Inserting one element into the sorted prefix keeps it sorted and the array a permutation |
| Agendar.OrdenarPorFecha | frontend/gestion-clientes-frontend/src/pages/AgendarCita.jsx:195 | The in-place sort leaves the array sorted by date and a permutation of what it was |
| Agendar.AgendarCitaPage.constructor | frontend/gestion-clientes-frontend/src/pages/AgendarCita.jsx:7-22 | The stored clients and appointments, nothing selected, an empty form |
| Agendar.AgendarCitaPage.SeleccionarCliente | frontend/gestion-clientes-frontend/src/pages/AgendarCita.jsx:46-53 | The client changes and the vehicle list is reloaded for it |
| Agendar.AgendarCitaPage.SeleccionarVehiculo | frontend/gestion-clientes-frontend/src/pages/AgendarCita.jsx:129 | Only the vehicle selection changes |
| Agendar.AgendarCitaPage.HandleChange | frontend/gestion-clientes-frontend/src/pages/AgendarCita.jsx:62 | Only the form changes, by the named field |
| Agendar.AgendarCitaPage.AgendarCita | frontend/gestion-clientes-frontend/src/pages/AgendarCita.jsx:88-187 | With a selection or field missing, an email outside `[^@\s]+@[^@\s]+\.[^@\s]+` or a phone outside `[0-9]{7,}` nothing changes; otherwise exactly one appointment {cliente, vehiculo, ...cita} is appended, the form and the vehicle clear, and the client stays |
| Agendar.AgendarCitaPage.OrdenarCitas | frontend/gestion-clientes-frontend/src/pages/AgendarCita.jsx:195 | The list becomes sorted by date and holds the same appointments |
| RegistroCliente.ConCampoSoloEse | frontend/gestion-clientes-frontend/src/pages/RegistroCliente.jsx:16-19 | A change writes the named field only |
| RegistroCliente.Payload | frontend/gestion-clientes-frontend/src/pages/RegistroCliente.jsx:43-48 | The body is the form, with email, telefono and direccion defaulting to "" |
| RegistroCliente.CorreoAceptadoPatron | frontend/gestion-clientes-frontend/src/pages/RegistroCliente.jsx:32-35 | An empty email passes; a non-empty one passes exactly when part of it matches the pattern non-space-run "@" non-space-run "." non-space-run |
| Text.EmailTestMatchesPattern | frontend/gestion-clientes-frontend/src/pages/RegistroCliente.jsx:33 | The scan decides exactly whether the regular expression finds a match |
| RegistroCliente.RegistroClientePage.constructor | frontend/gestion-clientes-frontend/src/pages/RegistroCliente.jsx:5-14 | Six empty fields and no error |
| RegistroCliente.RegistroClientePage.HandleChange | frontend/gestion-clientes-frontend/src/pages/RegistroCliente.jsx:16-19 | The form changes by the named field |
| RegistroCliente.RegistroClientePage.HandleSubmit | frontend/gestion-clientes-frontend/src/pages/RegistroCliente.jsx:21-79 | The error clears first; required fields, then email, then token, the first failure setting its message with nothing posted; otherwise the payload goes out, success resets the form, a rejection shows the backend detail or the default, a failed connection the server message |
| Http.DetalleO | frontend/gestion-clientes-frontend/src/pages/RegistroCliente.jsx:73 | The backend's detail when present and non-empty, else the default message |
| RegistroVehiculo.ConCampoSoloEse | frontend/gestion-clientes-frontend/src/pages/RegistroVehiculo.jsx:31-34 | A change writes the named field only |
| RegistroVehiculo.ParseIntTexto | frontend/gestion-clientes-frontend/src/pages/RegistroVehiculo.jsx:51 | Parsing the decimal text of any integer gives that integer back |
| RegistroVehiculo.DigitosIniciales | frontend/gestion-clientes-frontend/src/pages/RegistroVehiculo.jsx:51 | The length of the leading digit run, whose characters are all digits and which is followed by a non-digit or the end |
| RegistroVehiculo.Payload | frontend/gestion-clientes-frontend/src/pages/RegistroVehiculo.jsx:46-52 | The payload copies cliente_id, placa, marca and modelo and carries the integer parse of anio |
| RegistroVehiculo.RegistroVehiculoPage.constructor | frontend/gestion-clientes-frontend/src/pages/RegistroVehiculo.jsx:7-13 | Five empty fields |
| RegistroVehiculo.RegistroVehiculoPage.HandleChange | frontend/gestion-clientes-frontend/src/pages/RegistroVehiculo.jsx:31-34 | The form changes by the named field |
| RegistroVehiculo.RegistroVehiculoPage.HandleSubmit | frontend/gestion-clientes-frontend/src/pages/RegistroVehiculo.jsx:36-79 | An empty field alerts and posts nothing; otherwise the payload is posted, success clears the form, and failure or no connection leaves it and alerts |
| Clientes.Filtrados | frontend/gestion-clientes-frontend/src/pages/Clientes.jsx:36-38 | In order, exactly the clients whose chosen field is present and contains the search, both lower-cased |
| Clientes.BusquedaVacia | frontend/gestion-clientes-frontend/src/pages/Clientes.jsx:37 | An empty search keeps a client exactly when its chosen field is present: a null field excludes it |
| Clientes.BusquedaVaciaPorNombre | frontend/gestion-clientes-frontend/src/pages/Clientes.jsx:10 | With the default filter "nombre", the empty search keeps every client |
| Clientes.SinId | frontend/gestion-clientes-frontend/src/pages/Clientes.jsx:79-80 | Every client with that id goes; the rest keep their order |
| Clientes.SinIdCuenta | frontend/gestion-clientes-frontend/src/pages/Clientes.jsx:79-80 | The count drops exactly when some client had that id |
| Clientes.ConCampoSoloEse | frontend/gestion-clientes-frontend/src/pages/Clientes.jsx:91-96 | An edit writes the named field; id, address and estado never change |
| Clientes.ClientesPage.constructor | frontend/gestion-clientes-frontend/src/pages/Clientes.jsx:8-14 | No clients, empty search, filter "nombre", dialog closed, no error |
| Clientes.ClientesPage.Cargar | frontend/gestion-clientes-frontend/src/pages/Clientes.jsx:17-33 | Success stores the listed clients; a rejection or no connection leaves them and shows the error |
| Clientes.ClientesPage.DatosGrafico | frontend/gestion-clientes-frontend/src/pages/Clientes.jsx:108-117 | A single bar, the number of loaded clients, never below the number shown |
| Clientes.ClientesPage.CambiarBusqueda | frontend/gestion-clientes-frontend/src/pages/Clientes.jsx:130 | Only the search text changes |
| Clientes.ClientesPage.CambiarFiltro | frontend/gestion-clientes-frontend/src/pages/Clientes.jsx:132 | Only the searched field changes |
| Clientes.ClientesPage.AbrirModalEdicion | frontend/gestion-clientes-frontend/src/pages/Clientes.jsx:41-44 | The dialog opens on a copy of that client |
| Clientes.ClientesPage.CerrarModal | frontend/gestion-clientes-frontend/src/pages/Clientes.jsx:204 | The cancel button closes the dialog and changes nothing else |
| Clientes.ClientesPage.HandleChange | frontend/gestion-clientes-frontend/src/pages/Clientes.jsx:91-96 | Only the named field of the edited client changes |
| Clientes.ClientesPage.GuardarEdicion | frontend/gestion-clientes-frontend/src/pages/Clientes.jsx:47-67 | An accepted update reloads the list and closes the dialog; otherwise the error shows and the dialog stays open |
| Clientes.ClientesPage.EliminarCliente | frontend/gestion-clientes-frontend/src/pages/Clientes.jsx:70-88 | Declining changes nothing; an accepted delete removes every client with that id; otherwise the list stays and the error shows |
| Historial.Filtrados | frontend/gestion-clientes-frontend/src/pages/HistorialServicios.jsx:30-34 | An order-preserving sublist holding exactly the vehicles whose lower-cased plate or owner name contains the lower-cased search |
| Historial.FiltroVacio | frontend/gestion-clientes-frontend/src/pages/HistorialServicios.jsx:30-34 | An empty search keeps every vehicle |
| Historial.SinNombreSoloPlaca | frontend/gestion-clientes-frontend/src/pages/HistorialServicios.jsx:33 | A vehicle without an owner name matches only by its plate |
| Historial.NombreMostrado | frontend/gestion-clientes-frontend/src/pages/HistorialServicios.jsx:65 | The owner name when present, otherwise "Sin nombre", never empty |
| Historial.FilasPdf | frontend/gestion-clientes-frontend/src/pages/HistorialServicios.jsx:63-68 | One row per listed vehicle, in order: plate, owner or "Sin nombre", make, model |
| Home.IngresosAgregar | frontend/gestion-clientes-frontend/src/pages/Home.jsx:37 | The income of no invoices is 0, and each invoice adds its total |
| Home.IngresosNoNegativos | frontend/gestion-clientes-frontend/src/pages/Home.jsx:37 | Non-negative totals give non-negative income |
| Home.Tablero | frontend/gestion-clientes-frontend/src/pages/Home.jsx:31-41 | Pending services is the number of appointments; today's count is the length of the upcoming list, which is exactly today's appointments in order, each as many times as listed, and never more than the pending count; income sums all totals; in progress counts the diagnostics |
| Api.BaseDeDatos.constructor | backend/app/routes/servicios.py:9-15 | An empty database, every row under its own key |
| Api.FilasValores | backend/app/routes/servicios.py:18-20 | A listing holds exactly the table's rows, each once |
| ServiciosApi.ListarServicios | backend/app/routes/servicios.py:18-20 | Every row once, in the database's order |
| ServiciosApi.ObtenerServicio | backend/app/routes/servicios.py:23-28 | The row, or 404 exactly when the id is absent |
| ServiciosApi.CrearServicio | backend/app/routes/servicios.py:31-40 | 400 and no change on a taken id; otherwise exactly that row is added |
| ServiciosApi.ActualizarServicio | backend/app/routes/servicios.py:43-51 | 404 and no change when absent; otherwise only that row is overwritten (a new id that is taken gives 500 with no change) |
| ServiciosApi.EliminarServicio | backend/app/routes/servicios.py:54-61 | 404 when absent; otherwise only that key goes |
| ServiciosApi.Sembrar | backend/app/routes/servicios.py:76-80 | The seeding loop's result as a table |
| ServiciosApi.SembrarConserva | backend/app/routes/servicios.py:76-80 | Seeding adds exactly the missing ids and never touches an existing row |
| ServiciosApi.SembrarNuevo | backend/app/routes/servicios.py:76-80 | A seeded id holds the first row with that id, unless the table had it |
| ServiciosApi.SembrarValido | backend/app/routes/servicios.py:76-80 | Seeding keeps every row under its own key |
| ServiciosApi.SembrarCompleto | backend/app/routes/servicios.py:76-80 | With every id already there, seeding changes nothing |
| ServiciosApi.SembrarIdempotente | backend/app/routes/servicios.py:76-82 | Seeding twice is seeding once |
| ServiciosApi.SembradoPredefinidos | backend/app/routes/servicios.py:65-80 | After seeding srv001 to srv008 are all present, each new one holding its catalog row |
| ServiciosApi.CargarServiciosPredefinidos | backend/app/routes/servicios.py:63-82 | The loop seeds the catalog, only the services table changes, and the answer is the success message |
| DiagnosticosApi.ListarDiagnosticos | backend/app/routes/diagnosticos.py:19-21 | Every row once, in the database's order |
| DiagnosticosApi.ObtenerDiagnostico | backend/app/routes/diagnosticos.py:23-28 | The row, or 404 exactly when absent |
| DiagnosticosApi.CrearDiagnostico | backend/app/routes/diagnosticos.py:30-39 | 400 and no change on a taken id; otherwise exactly that row is added |
| DiagnosticosApi.ActualizarDiagnostico | backend/app/routes/diagnosticos.py:41-49 | 404 when absent; otherwise only that row is overwritten (a taken new id gives 500 with no change) |
| DiagnosticosApi.EliminarDiagnostico | backend/app/routes/diagnosticos.py:51-58 | 404 when absent; otherwise only that key goes |
| DiagnosticosApi.ConDetallesClaves | backend/app/routes/diagnosticos.py:76-81 | The detail table gains exactly the payload's detail ids |
| DiagnosticosApi.ConDetallesContenido | backend/app/routes/diagnosticos.py:76-81 | With fresh, distinct ids, old rows stay and each payload detail is stored under its id with its component and value |
| DiagnosticosApi.DetallesDelEncabezado | backend/app/routes/diagnosticos.py:78-81 | Every stored detail belongs to the header's diagnostic, whatever id the payload row carried |
| DiagnosticosApi.ConDetallesValido | backend/app/routes/diagnosticos.py:76-81 | Every detail row stays under its own key |
| DiagnosticosApi.AgregarDetalles | backend/app/routes/diagnosticos.py:76-81 | The insert loop builds exactly that table |
| DiagnosticosApi.CrearDiagnosticoCompleto | backend/app/routes/diagnosticos.py:61-87 | An existing id gives 400 before anything is added; repeated or taken detail ids give 500 with no change; otherwise the header and one detail per payload element are added |
| VehiculosApi.NombreDueno | backend/app/routes/vehiculos.py:66-72 | The owner's name, or "No registrado" when that client is missing |
| VehiculosApi.Unir | backend/app/routes/vehiculos.py:64-73 | One entry per vehicle, in order, each carrying its owner's name |
| VehiculosApi.CrearVehiculo | backend/app/routes/vehiculos.py:29-38 | 400 and no change on a taken plate; otherwise exactly that row is added |
| VehiculosApi.ActualizarVehiculo | backend/app/routes/vehiculos.py:41-49 | 404 when absent; otherwise only that row is overwritten (a taken new plate gives 500 with no change) |
| VehiculosApi.EliminarVehiculo | backend/app/routes/vehiculos.py:52-59 | 404 when absent; otherwise only that plate goes |
| VehiculosApi.ListarVehiculos | backend/app/routes/vehiculos.py:61-74 | Exactly one entry per vehicle, in table order, with the owner's name |
| VehiculosApi.DelCliente | backend/app/routes/vehiculos.py:76-89 | An order-preserving sublist of exactly the vehicles of that client |
| VehiculosApi.VehiculosPorCliente | backend/app/routes/vehiculos.py:76-89 | That client's vehicles in table order, cut to plate, make and model |
| VehiculosApi.PorClienteExacto | backend/app/routes/vehiculos.py:76-89 | A vehicle is listed for a client exactly when the table holds it under that client |
| DetallesApi.ListarDetalles | backend/app/routes/detalle_diagnostico.py:17-19 | Every row once, in the database's order |
| DetallesApi.ObtenerDetalle | backend/app/routes/detalle_diagnostico.py:21-26 | The row, or 404 exactly when absent |
| DetallesApi.ObtenerPorPlaca | backend/app/routes/detalle_diagnostico.py:29-34 | Exactly the details whose diagnostic has that plate, in table order, or 404 exactly when there is none |
| DetallesApi.CrearDetalle | backend/app/routes/detalle_diagnostico.py:36-45 | 400 and no change on a duplicate id; otherwise exactly that row is added |
| DetallesApi.ActualizarDetalle | backend/app/routes/detalle_diagnostico.py:47-55 | 404 when absent; otherwise only that row is overwritten (a taken new id gives 500 with no change) |
| DetallesApi.EliminarDetalle | backend/app/routes/detalle_diagnostico.py:57-64 | 404 when absent; otherwise only that key goes |
| ClientesApi.EstadoDesde | backend/app/schemas/cliente_schema.py:12 | "Activo" when missing, one of "Activo"/"Inactivo" parsed as itself, anything else rejected with 422 |
| ClientesApi.ListarClientes | backend/app/routes/clientes.py:21-23 | Every row once, in the database's order |
| ClientesApi.ObtenerCliente | backend/app/routes/clientes.py:26-31 | The row, or 404 exactly when absent |
| ClientesApi.CrearCliente | backend/app/routes/clientes.py:34-43 | No existence check and no 400: a new id is added, a taken one fails the commit with 500 and no change |
| ClientesApi.ActualizarCliente | backend/app/routes/clientes.py:46-54 | 404 when absent; otherwise every field of that client only is overwritten (a taken new id gives 500) |
| ClientesApi.EliminarCliente | backend/app/routes/clientes.py:57-64 | 404 when absent; otherwise only that id goes |

## Left out

- Network, storage and authentication:
  - every `fetch`/`authFetch` call, `authFetch.js` itself, the 401 redirect;
  - `localStorage`, and the JWT dependency of the routers.

  The data they deliver come in as parameters. The bodies the pages send come out as
  results.
- EmailJS reminders, PDF and canvas generation (jsPDF, html2canvas), Chart.js styling,
  rendering and `navigate`. The model returns the rows, chart data, invoice and
  navigation state they would receive.
- Randomness and the clock: `uuidv4`, `crypto.randomUUID`, the random invoice number and
  `new Date()` are parameters.
- Reports.Mes: the month bucket is the `YYYY-MM` prefix of the ISO date, not the browser's
  localised "month year" name. The two give one bucket per calendar month; the text of the
  label is not modelled.
- Dates are compared as ISO strings (`Fechas.FechaCronologica` shows this is the time
  order). Time-zone effects of `new Date` are not modelled.
- Text.Lower: `toLowerCase` is modelled for ASCII and the Latin-1 capitals only; full
  Unicode case mapping is left out.
- Floating point: prices, costs and angles are exact `real`s.
  - `toFixed(2)` only formats the figures for display: the tax and the totals are not
    rounded, and the formatting is left out.
  - `parseFloat` of a camber is left out: the handler receives the number.
  - `parseInt` is modelled for the decimal prefix it reads; infinities and exponents are left out.
- Agendar.OrdenarPorFecha: an insertion sort that is sorted and a permutation. The stability
  of the browser's `Array.prototype.sort` is not stated, and ties may come out in a
  different order than in the browser.
- JavaScript puts integer-like object keys first. The model assumes service, client and
  month names that are not integer-like, so first-seen order holds.
- Database internals:
  - SQLAlchemy sessions and autoflush;
  - the database engine, which no core file names;
  - foreign keys: the model does not check a detail's `id_diagnostico`, declared a
    foreign key to `diagnosticos`, against that table.

  A detail's `valor` is declared `Column(String)` and the schema accepts a string or a
  number; the model's backend stores it as text, and the diagnostic page posts numbers.

  A commit that fails on a taken primary key is modelled as a 500 answer that changes
  nothing. The `print` in `crear_cliente` is left out.
- `backend/app/schemas/servicio_schema.py` is not part of this model. The service fields
  are those the predefined rows use.
- The vehicle form sends `anio`. `VehiculoBase` has no such field, so the backend drops it.
  The model builds the payload with it and stores vehicles without it.
- `RegistroConsumo.jsx` and `backend/app/routes/consumos.py` only rename fields, post, or
  insert fixed test rows: left out.
- Page features outside the modelled handlers, which only show data or navigate:
  - the inspection listing of the invoicing page;
  - the logo upload, `handleSave` and the login guard of the profile page;
  - `verDetalles` of the history page;
  - `verDetalles` and `cerrarDetalles` of the client list;
  - the notes and PDF export of the dashboard and the reports page.
- Consulta.Campo: a search on the numeric `costo` field compares against `String(costo)`
  in the page. The model does not render numbers as text, so it reads that field as "",
  like a name that is not a field of the record.
- Home: the appointments it reads are assumed to have the shape the appointment page
  stores (`Agendar.Cita`).
- A `handleChange` with a name that is not a field of the form changes nothing in the
  model. In the page it would add an unused key.
- The recommendation texts are the page's own Spanish sentences; no translation is
  modelled.
- Invoice lines are deduplicated by name only among the services picked on the invoicing
  page; the model has no other source of invoice lines.
- Agendar.AgendarCitaPage.AgendarCita: the form's `pattern` and `required` checks are
  modelled; the browser's own syntax check of a `type="email"` input, which may refuse
  further addresses, is not.

## Findings

| source | as written | input that shows it | evidently intended | confidence | as-written member | corrected member |
|---|---|---|---|---|---|---|
| frontend/gestion-clientes-frontend/src/pages/Consulta.jsx:117-131 | The delete and estado buttons of a table row pass the row's index in the filtered list (Consulta.jsx:245-255). `handleEliminar` and `toggleEstado` apply that index to the whole list | Records [Ana, Beto], search "beto" on `cliente_nombre`, only Beto shown: pressing delete on that row removes Ana and Beto stays on screen | The button acts on the record shown in its row | not executed | Consulta.EliminarFiltradoDemo | Consulta.ConsultaPage.EliminarVisible |
