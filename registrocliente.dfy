/** The client registration form: six text fields and an error line; the submission
    checks the required fields, then the email, then the session token, and resets the
    form once the backend accepts the client. */
module RegistroCliente {
  import opened Wrappers
  import opened Text
  import opened Http

  datatype FormularioCliente = FormularioCliente(id: string, nombre: string, tecnomecanica: string,
                                                 email: string, telefono: string, direccion: string)

  const FormularioVacio := FormularioCliente("", "", "", "", "", "")

  const ErrorObligatorios := "❌ Todos los campos obligatorios deben ser llenados."
  const ErrorCorreo := "❌ El correo electrónico no es válido."
  const ErrorSesion := "❌ No estás autenticado. Inicia sesión."
  const ErrorRegistro := "❌ Error al registrar el cliente."
  const ErrorServidor := "❌ Hubo un problema al contactar al servidor."

  /** `{ ...prev, [name]: value }`. */
  function ConCampo(f: FormularioCliente, name: string, value: string): FormularioCliente
  {
    match name
    case "id" => f.(id := value)
    case "nombre" => f.(nombre := value)
    case "tecnomecanica" => f.(tecnomecanica := value)
    case "email" => f.(email := value)
    case "telefono" => f.(telefono := value)
    case "direccion" => f.(direccion := value)
    case _ => f
  }

  /** A change writes the named field and leaves the other five as they were. */
  lemma ConCampoSoloEse(f: FormularioCliente, name: string, value: string)
    ensures var r := ConCampo(f, name, value);
      && (r.id == if name == "id" then value else f.id)
      && (r.nombre == if name == "nombre" then value else f.nombre)
      && (r.tecnomecanica == if name == "tecnomecanica" then value else f.tecnomecanica)
      && (r.email == if name == "email" then value else f.email)
      && (r.telefono == if name == "telefono" then value else f.telefono)
      && (r.direccion == if name == "direccion" then value else f.direccion)
  {
  }

  /** The required fields are filled in. */
  predicate Obligatorios(f: FormularioCliente)
  {
    f.id != "" && f.nombre != "" && f.tecnomecanica != ""
  }

  /** The email passes when it is empty or contains a match of `\S+@\S+\.\S+`. */
  predicate CorreoAceptado(email: string)
  {
    email == "" || EmailTest(email)
  }

  /** The body posted: the form, with email, telefono and direccion defaulting to "". */
  function Payload(f: FormularioCliente): (p: FormularioCliente)
    ensures p == f
  {
    f.(email := if f.email != "" then f.email else "",
       telefono := if f.telefono != "" then f.telefono else "",
       direccion := if f.direccion != "" then f.direccion else "")
  }

  /** The email check accepts a non-empty address exactly when some part of it has the
      shape run-of-non-spaces `@` run-of-non-spaces `.` run-of-non-spaces. */
  lemma CorreoAceptadoPatron(email: string)
    requires email != ""
    ensures CorreoAceptado(email) <==> MatchesEmailPattern(email)
  {
    EmailTestMatchesPattern(email);
  }

  class RegistroClientePage {
    var formData: FormularioCliente
    var error: string

    constructor()
      ensures formData == FormularioVacio && error == ""
    {
      formData, error := FormularioVacio, "";
    }

    method HandleChange(name: string, value: string)
      modifies this
      ensures formData == ConCampo(old(formData), name, value) && error == old(error)
    {
      formData := ConCampo(formData, name, value);
    }

    /** `handleSubmit`. `token` is the stored session token and `respuesta` how the post
        ends. The error line is cleared first; the first failing check sets its message
        and nothing is posted; otherwise the payload goes out, and only an accepted one
        resets the form. */
    method HandleSubmit(token: Option<string>, respuesta: Respuesta) returns (enviado: Option<FormularioCliente>)
      modifies this
      ensures !Obligatorios(old(formData)) ==>
                enviado == None && error == ErrorObligatorios && formData == old(formData)
      ensures Obligatorios(old(formData)) && !CorreoAceptado(old(formData).email) ==>
                enviado == None && error == ErrorCorreo && formData == old(formData)
      ensures Obligatorios(old(formData)) && CorreoAceptado(old(formData).email)
              && (token.None? || token.value == "") ==>
                enviado == None && error == ErrorSesion && formData == old(formData)
      ensures enviado.Some? <==>
                Obligatorios(old(formData)) && CorreoAceptado(old(formData).email)
                && token.Some? && token.value != ""
      ensures enviado.Some? ==> enviado.value == old(formData)
      ensures enviado.Some? && respuesta == Exito ==> formData == FormularioVacio && error == ""
      ensures enviado.Some? && respuesta.Rechazo? ==>
                formData == old(formData) && error == DetalleO(respuesta.detail, ErrorRegistro)
      ensures enviado.Some? && respuesta == SinConexion ==>
                formData == old(formData) && error == ErrorServidor
    {
      error := "";
      enviado := None;
      if formData.id == "" || formData.nombre == "" || formData.tecnomecanica == "" {
        error := ErrorObligatorios;
        return;
      }
      if formData.email != "" && !EmailTest(formData.email) {
        error := ErrorCorreo;
        return;
      }
      if token.None? || token.value == "" {
        error := ErrorSesion;
        return;
      }
      var cliente := Payload(formData);
      enviado := Some(cliente);
      match respuesta
      case Exito =>
        formData := FormularioVacio;
      case Rechazo(detail) =>
        error := DetalleO(detail, ErrorRegistro);
      case SinConexion =>
        error := ErrorServidor;
    }
  }
}
