/** How a request made by a page ended, as far as the page can tell: a success, a
    rejection carrying the backend's optional `detail`, or no answer at all. */
module Http {
  import opened Wrappers

  datatype Respuesta = Exito | Rechazo(detail: Option<string>) | SinConexion

  /** `data.detail || porDefecto`: the backend's message unless it is missing or empty. */
  function DetalleO(detail: Option<string>, porDefecto: string): (m: string)
    ensures detail.Some? && detail.value != "" ==> m == detail.value
    ensures detail.None? || detail.value == "" ==> m == porDefecto
  {
    match detail
    case Some(d) => if d != "" then d else porDefecto
    case None => porDefecto
  }
}
