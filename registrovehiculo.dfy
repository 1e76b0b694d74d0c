/** The vehicle registration form: five text fields, all required; the year is sent as
    `parseInt` of its text, and an accepted registration clears the form. */
module RegistroVehiculo {
  import opened Wrappers
  import opened Fechas
  import opened Http

  datatype FormularioVehiculo = FormularioVehiculo(cliente_id: string, placa: string, marca: string,
                                                   modelo: string, anio: string)

  const FormularioVacio := FormularioVehiculo("", "", "", "", "")

  /** The body posted; `anio` is `None` where `parseInt` gives `NaN`, which is sent as `null`. */
  datatype VehiculoPayload = VehiculoPayload(cliente_id: string, placa: string, marca: string,
                                             modelo: string, anio: Option<int>)

  const AvisoIncompleto := "Por favor completa todos los campos."
  const AvisoExito := "✅ Vehículo registrado correctamente."
  const AvisoConexion := "❌ Error de conexión."

  function ConCampo(f: FormularioVehiculo, name: string, value: string): FormularioVehiculo
  {
    match name
    case "cliente_id" => f.(cliente_id := value)
    case "placa" => f.(placa := value)
    case "marca" => f.(marca := value)
    case "modelo" => f.(modelo := value)
    case "anio" => f.(anio := value)
    case _ => f
  }

  /** A change writes the named field and leaves the other four as they were. */
  lemma ConCampoSoloEse(f: FormularioVehiculo, name: string, value: string)
    ensures var r := ConCampo(f, name, value);
      && (r.cliente_id == if name == "cliente_id" then value else f.cliente_id)
      && (r.placa == if name == "placa" then value else f.placa)
      && (r.marca == if name == "marca" then value else f.marca)
      && (r.modelo == if name == "modelo" then value else f.modelo)
      && (r.anio == if name == "anio" then value else f.anio)
  {
  }

  predicate Completo(f: FormularioVehiculo)
  {
    f.cliente_id != "" && f.placa != "" && f.marca != "" && f.modelo != "" && f.anio != ""
  }

  /** The length of the run of decimal digits `s` starts with. */
  function DigitosIniciales(s: string): (k: nat)
    ensures k <= |s| && Digitos(s[..k])
    ensures k < |s| ==> !Digito(s[k])
  {
    if s == [] || !Digito(s[0]) then 0
    else
      var k := 1 + DigitosIniciales(s[1..]);
      assert s[..k] == [s[0]] + s[1..][..k - 1];
      k
  }

  /** `parseInt(s)` in base ten: an optional sign, then the leading digits; nothing
      (`NaN`) when no digit follows. */
  function ParseInt(s: string): Option<int>
  {
    var negativo := |s| > 0 && s[0] == '-';
    var resto := if |s| > 0 && (s[0] == '-' || s[0] == '+') then s[1..] else s;
    var k := DigitosIniciales(resto);
    if k == 0 then None
    else
      var n: int := Numero(resto[..k]);
      Some(if negativo then -n else n)
  }

  function CaracterDigito(d: nat): char
    requires d <= 9
  {
    ('0' as int + d) as char
  }

  /** The decimal digits of `n`, without leading zeros. */
  function Decimal(n: nat): (s: string)
    ensures |s| > 0 && Digitos(s)
    decreases n
  {
    if n < 10 then [CaracterDigito(n)] else Decimal(n / 10) + [CaracterDigito(n % 10)]
  }

  /** How a year is written: its decimal digits, after a minus sign when negative. */
  function Texto(n: int): string
  {
    if n < 0 then "-" + Decimal(-n) else Decimal(n)
  }

  lemma Desplazar(v: nat, p: nat, a: nat, d: nat)
    ensures v * (10 * p) + (10 * a + d) == 10 * (v * p + a) + d
  {
  }

  lemma {:induction false} NumeroAlFinal(s: string, c: char)
    requires Digitos(s) && Digito(c)
    ensures Digitos(s + [c])
    ensures Numero(s + [c]) == 10 * Numero(s) + ValorDigito(c)
  {
    var t := s + [c];
    assert Digitos(t) by {
      forall i | 0 <= i < |t| ensures Digito(t[i]) { if i < |s| { assert t[i] == s[i]; } }
    }
    if s != [] {
      assert t[0] == s[0] && t[1..] == s[1..] + [c];
      NumeroAlFinal(s[1..], c);
      var v := ValorDigito(s[0]);
      var p := Pow10(|s| - 1);
      assert Numero(t) == v * Pow10(|s|) + Numero(t[1..]);
      assert Pow10(|s|) == 10 * p;
      Desplazar(v, p, Numero(s[1..]), ValorDigito(c));
    }
  }

  lemma {:induction false} NumeroDecimal(n: nat)
    ensures Numero(Decimal(n)) == n
    decreases n
  {
    if n >= 10 {
      NumeroDecimal(n / 10);
      NumeroAlFinal(Decimal(n / 10), CaracterDigito(n % 10));
    }
  }

  /** Reading back what `Texto` writes gives the number again. */
  lemma ParseIntTexto(n: int)
    ensures ParseInt(Texto(n)) == Some(n)
  {
    var m := if n < 0 then -n else n;
    var d := Decimal(m);
    NumeroDecimal(m);
    var s := Texto(n);
    var resto := if n < 0 then s[1..] else s;
    assert resto == d;
    assert DigitosIniciales(d) == |d|;
    assert d[..|d|] == d;
  }

  /** The payload copies four fields and parses the year. */
  function Payload(f: FormularioVehiculo): (p: VehiculoPayload)
    ensures p.cliente_id == f.cliente_id && p.placa == f.placa && p.marca == f.marca && p.modelo == f.modelo
    ensures forall n: int :: f.anio == Texto(n) ==> p.anio == Some(n)
  {
    forall n: int | f.anio == Texto(n)
      ensures ParseInt(f.anio) == Some(n)
    {
      ParseIntTexto(n);
    }
    VehiculoPayload(f.cliente_id, f.placa, f.marca, f.modelo, ParseInt(f.anio))
  }

  class RegistroVehiculoPage {
    var clientes: seq<string>
    var formData: FormularioVehiculo

    /** `clientes` are the ids of the clients offered in the selector. */
    constructor(clientes: seq<string>)
      ensures this.clientes == clientes && formData == FormularioVacio
    {
      this.clientes := clientes;
      formData := FormularioVacio;
    }

    method HandleChange(name: string, value: string)
      modifies this
      ensures formData == ConCampo(old(formData), name, value) && clientes == old(clientes)
    {
      formData := ConCampo(formData, name, value);
    }

    /** `handleSubmit`: an incomplete form only alerts; a complete one posts the payload,
        and the form is cleared only when the backend accepts it. `aviso` is the alert. */
    method HandleSubmit(respuesta: Respuesta) returns (enviado: Option<VehiculoPayload>, aviso: string)
      modifies this
      ensures !Completo(old(formData)) ==> enviado == None && aviso == AvisoIncompleto && formData == old(formData)
      ensures Completo(old(formData)) ==> enviado == Some(Payload(old(formData)))
      ensures Completo(old(formData)) && respuesta == Exito ==> formData == FormularioVacio && aviso == AvisoExito
      ensures Completo(old(formData)) && respuesta.Rechazo? ==>
                formData == old(formData) && aviso == "❌ Error: " + DetalleO(respuesta.detail, "Error desconocido.")
      ensures Completo(old(formData)) && respuesta == SinConexion ==>
                formData == old(formData) && aviso == AvisoConexion
      ensures clientes == old(clientes)
    {
      if formData.cliente_id == "" || formData.placa == "" || formData.marca == "" || formData.modelo == ""
         || formData.anio == "" {
        return None, AvisoIncompleto;
      }
      enviado := Some(Payload(formData));
      match respuesta
      case Exito =>
        aviso := AvisoExito;
        formData := FormularioVacio;
      case Rechazo(detail) =>
        aviso := "❌ Error: " + DetalleO(detail, "Error desconocido.");
      case SinConexion =>
        aviso := AvisoConexion;
    }
  }
}
