/** The registration screen: the birth-date field reformats what is typed into
    `DD/MM/AAAA` as the user types, and the form schema lists the problems of a
    submitted form. */
module Register {
  import opened Wrappers
  import opened Text
  import Seqs

  // ---------------------------------------------------------------------------
  // The birth-date formatter

  /** Where the digits go: up to two; then a slash and up to two more; then a
      second slash and up to four more. Digits past the eighth are dropped. */
  function Disposicion(d: string): string {
    if |d| <= 2 then d
    else if |d| <= 4 then d[..2] + "/" + d[2..]
    else d[..2] + "/" + d[2..4] + "/" + d[4..Min(|d|, 8)]
  }

  /** What the field holds after typing `text`. */
  function FormatoFecha(text: string): string {
    Disposicion(Digits(text))
  }

  /** The `onChangeText` handler: keeps the digits, then inserts the first slash
      and the second one in two conditional steps. */
  method FormatearFechaNacimiento(text: string) returns (formatted: string)
    ensures formatted == FormatoFecha(text)
  {
    formatted := Digits(text);
    if |formatted| > 0 {
      if |formatted| > 2 {
        formatted := Slice(formatted, 0, 2) + "/" + SliceFrom(formatted, 2);
      }
      if |formatted| > 5 {
        formatted := Slice(formatted, 0, 5) + "/" + Slice(formatted, 5, 9);
      }
    }
  }

  /** `^\d{2}\/\d{2}\/\d{4}$` */
  predicate PatronFecha(s: string) {
    && |s| == 10
    && s[2] == '/' && s[5] == '/'
    && forall i :: 0 <= i < 10 && i != 2 && i != 5 ==> IsDigit(s[i])
  }

  lemma DigitsOfSlash()
    ensures Digits("/") == ""
  {
    assert "/"[1..] == "";
  }

  /** A slash adds no digit. */
  lemma DigitsConBarra(x: string, b: string)
    requires forall i :: 0 <= i < |b| ==> IsDigit(b[i])
    ensures Digits(x + "/" + b) == Digits(x) + b
  {
    var conBarra := x + "/";
    DigitsOfSlash();
    DigitsAppend(x, "/");
    assert Digits(conBarra) == Digits(x);
    DigitsAppend(conBarra, b);
    DigitsOfDigits(b);
  }

  /** What a text of digits and slashes reads as once its slashes are dropped. */
  predicate DigitosYBarras(r: string) {
    forall i :: 0 <= i < |r| ==> IsDigit(r[i]) || r[i] == '/'
  }

  lemma DisposicionMedia(d: string)
    requires 2 < |d| <= 4 && forall i :: 0 <= i < |d| ==> IsDigit(d[i])
    ensures DigitosYBarras(Disposicion(d)) && Digits(Disposicion(d)) == d
  {
    DigitsConBarra(d[..2], d[2..]);
    DigitsOfDigits(d[..2]);
    assert d[..2] + d[2..] == d;
  }

  lemma DisposicionLarga(d: string)
    requires 4 < |d| && forall i :: 0 <= i < |d| ==> IsDigit(d[i])
    ensures DigitosYBarras(Disposicion(d)) && Digits(Disposicion(d)) == d[..Min(|d|, 8)]
  {
    var m := Min(|d|, 8);
    var primera := d[..2] + "/" + d[2..4];
    DigitsConBarra(d[..2], d[2..4]);
    DigitsOfDigits(d[..2]);
    assert Digits(primera) == d[..2] + d[2..4];
    DigitsConBarra(primera, d[4..m]);
    assert d[..2] + d[2..4] + d[4..m] == d[..m];
  }

  /** The formatted text holds the first eight digits, in order, and nothing but
      them and slashes; it is at most ten characters long. */
  lemma FormatoSoloDigitosYBarras(text: string)
    ensures var r := FormatoFecha(text); var d := Digits(text);
      && |r| <= 10
      && DigitosYBarras(r)
      && Digits(r) == d[..Min(|d|, 8)]
  {
    var d := Digits(text);
    if |d| <= 2 {
      DigitsOfDigits(d);
    } else if |d| <= 4 {
      DisposicionMedia(d);
    } else {
      DisposicionLarga(d);
    }
  }

  /** A slash follows the second digit exactly when more than two digits were
      typed, and a second one follows the fourth exactly when more than four
      were. */
  lemma FormatoBarras(text: string)
    ensures var r := FormatoFecha(text); var n := |Digits(text)|;
      && ((|r| > 2 && r[2] == '/') <==> n > 2)
      && ((|r| > 5 && r[5] == '/') <==> n > 4)
  {
    var d := Digits(text);
    var r := FormatoFecha(text);
    assert !IsDigit('/');
    if |d| > 4 {
      assert r[2] == '/' && r[5] == '/';
    } else if |d| > 2 {
      assert r[2] == '/' && |r| <= 5;
    } else {
      assert |r| <= 2;
    }
  }

  /** Without digits the field is emptied; and only then. */
  lemma FormatoVacio(text: string)
    ensures FormatoFecha(text) == "" <==> Digits(text) == ""
  {
  }

  /** Reformatting the formatted text changes nothing. */
  lemma FormatoIdempotente(text: string)
    ensures FormatoFecha(FormatoFecha(text)) == FormatoFecha(text)
  {
    var d := Digits(text);
    FormatoSoloDigitosYBarras(text);
    var m := Min(|d|, 8);
    assert Digits(FormatoFecha(text)) == d[..m];
    assert Disposicion(d[..m]) == Disposicion(d) by {
      var e := d[..m];
      if |d| > 4 {
        assert e[..2] == d[..2] && e[2..4] == d[2..4] && e[4..Min(|e|, 8)] == d[4..m];
      } else if |d| > 2 {
        assert e == d;
      }
    }
  }

  /** Eight or more digits always give a date the schema's pattern accepts. */
  lemma FormatoCompleto(text: string)
    requires |Digits(text)| >= 8
    ensures PatronFecha(FormatoFecha(text))
  {
    var d := Digits(text);
    var r := FormatoFecha(text);
    assert r == d[..2] + "/" + d[2..4] + "/" + d[4..8];
    forall i | 0 <= i < 10 && i != 2 && i != 5 ensures IsDigit(r[i]) {
      if i < 2 {
        assert r[i] == d[i];
      } else if i < 5 {
        assert r[i] == d[i - 1];
      } else {
        assert r[i] == d[i - 2];
      }
    }
  }

  // ---------------------------------------------------------------------------
  // The registration schema

  /** The form's fields; one left untouched is undefined. */
  datatype FormRegistro = FormRegistro(
    name: Option<string>,
    fullname: Option<string>,
    email: Option<string>,
    password: Option<string>,
    confirmPassword: Option<string>,
    birthDate: Option<string>,
    termsAccepted: bool)

  datatype CampoRegistro = Name | Fullname | Email | Password | ConfirmPassword | BirthDate | TermsAccepted

  datatype Problema = Problema(campo: CampoRegistro, mensaje: string)

  const MensajeRequerido: string := "Required"
  const MensajeContrasenas: string := "Las contrasenas no coinciden"
  const MensajeMinimo: string := "Mínimo 6 caracteres"
  const MensajeTerminos: string := "Debes aceptar los términos y condiciones"
  const MensajeFormato: string := "Formato inválido (DD/MM/AAAA)"
  const MensajeNombreVacio: string := "El nombre es obligatorio"
  const MensajeUsuarioVacio: string := "El nombre de usuario es obligatorio"
  const MensajeCorreoVacio: string := "El correo es obligatorio"
  const MensajeContrasenaVacia: string := "La contraseña es obligatoria"
  const MensajeFechaVacia: string := "La fecha de nacimiento es obligatoria"
  const MensajeCorreoInvalido: string := "Correo inválido"
  const MensajeConfirmacionVacia: string := "La confirmación de contraseña es obligatoria"

  /** The problems of one text field: undefined is a type error; otherwise every
      failing check is reported. */
  function ProblemasDeTexto(campo: CampoRegistro, v: Option<string>, vacio: string,
                            extra: seq<(bool, string)>): (r: seq<Problema>)
    ensures forall i :: 0 <= i < |r| ==> r[i].campo == campo
    ensures forall m :: Problema(campo, m) in r ==>
      m == MensajeRequerido || m == vacio || exists i :: 0 <= i < |extra| && extra[i].1 == m
    ensures v.None? ==> r == [Problema(campo, MensajeRequerido)]
    ensures v == Some("") ==> Problema(campo, vacio) in r
  {
    if v.None? then [Problema(campo, MensajeRequerido)]
    else (if v.value == "" then [Problema(campo, vacio)] else []) + Fallos(campo, extra)
  }

  /** Whether a (passes, message) check fails. */
  predicate Falla(c: (bool, string)) {
    !c.0
  }

  /** The checks that fail, in order; each pair is (passes, message). */
  function Fallos(campo: CampoRegistro, checks: seq<(bool, string)>): (r: seq<Problema>)
    ensures forall i :: 0 <= i < |r| ==> r[i].campo == campo
    ensures forall m :: Problema(campo, m) in r <==> exists i :: 0 <= i < |checks| && !checks[i].0 && checks[i].1 == m
    ensures r == [] <==> forall i :: 0 <= i < |checks| ==> checks[i].0
  {
    if checks == [] then []
    else
      (if checks[0].0 then [] else [Problema(campo, checks[0].1)]) + Fallos(campo, checks[1..])
  }

  /** The reported problems follow the failing checks one for one, in the
      checks' order. */
  lemma {:induction false} FallosEnOrden(campo: CampoRegistro, checks: seq<(bool, string)>)
    ensures |Fallos(campo, checks)| == |Seqs.Filter(checks, Falla)|
    ensures forall k :: 0 <= k < |Fallos(campo, checks)| ==>
      Fallos(campo, checks)[k] == Problema(campo, Seqs.Filter(checks, Falla)[k].1)
  {
    if checks != [] {
      FallosEnOrden(campo, checks[1..]);
      var cabeza := if checks[0].0 then [] else [Problema(campo, checks[0].1)];
      assert Fallos(campo, checks) == cabeza + Fallos(campo, checks[1..]);
      assert Seqs.Filter(checks, Falla) ==
        (if Falla(checks[0]) then [checks[0]] else []) + Seqs.Filter(checks[1..], Falla);
    }
  }

  /** Whether every field reached its checks: the password refinement runs only
      then. */
  predicate TodosDefinidos(f: FormRegistro) {
    f.name.Some? && f.fullname.Some? && f.email.Some? && f.password.Some?
    && f.confirmPassword.Some? && f.birthDate.Some?
  }

  /** The problems of the six text fields, in the schema's order. */
  function ProblemasDeTextos(f: FormRegistro, emailValido: bool): (r: seq<Problema>)
    ensures forall i :: 0 <= i < |r| ==> r[i].campo != TermsAccepted
    ensures forall i :: 0 <= i < |r| && r[i].campo == ConfirmPassword ==>
      r[i].mensaje == MensajeRequerido || r[i].mensaje == MensajeConfirmacionVacia
    ensures f.birthDate.Some? && f.birthDate.value != "" && PatronFecha(f.birthDate.value) ==>
      forall i :: 0 <= i < |r| ==> r[i].campo != BirthDate
    ensures f.password.Some? ==> (Problema(Password, MensajeMinimo) in r <==> |f.password.value| < 6)
  {
    var a, b, c := ProblemasDeIdentidad(f, emailValido), ProblemasDeClaves(f), ProblemasDeFecha(f);
    var x := Problema(Password, MensajeMinimo);
    assert x !in a && x !in c;
    assert x in a + b + c <==> x in b;
    a + b + c
  }

  /** The name, user name and email fields. */
  function ProblemasDeIdentidad(f: FormRegistro, emailValido: bool): (r: seq<Problema>)
    ensures forall i :: 0 <= i < |r| ==> r[i].campo in {Name, Fullname, Email}
  {
    ProblemasDeTexto(Name, f.name, MensajeNombreVacio, [])
    + ProblemasDeTexto(Fullname, f.fullname, MensajeUsuarioVacio, [])
    + ProblemasDeTexto(Email, f.email, MensajeCorreoVacio, [(emailValido, MensajeCorreoInvalido)])
  }

  /** The password and its confirmation. */
  function ProblemasDeClaves(f: FormRegistro): (r: seq<Problema>)
    ensures forall i :: 0 <= i < |r| ==> r[i].campo in {Password, ConfirmPassword}
    ensures forall i :: 0 <= i < |r| && r[i].campo == ConfirmPassword ==>
      r[i].mensaje == MensajeRequerido || r[i].mensaje == MensajeConfirmacionVacia
    ensures f.password.Some? ==> (Problema(Password, MensajeMinimo) in r <==> |f.password.value| < 6)
  {
    var checks := [(f.password.Some? && |f.password.value| >= 6, MensajeMinimo)];
    var pw := ProblemasDeTexto(Password, f.password, MensajeContrasenaVacia, checks);
    assert |MensajeMinimo| != |MensajeContrasenaVacia| && |MensajeMinimo| != |MensajeRequerido|;
    assert f.password.Some? ==> (Problema(Password, MensajeMinimo) in Fallos(Password, checks) <==> !checks[0].0);
    pw + ProblemasDeTexto(ConfirmPassword, f.confirmPassword, MensajeConfirmacionVacia, [])
  }

  /** The birth date. */
  function ProblemasDeFecha(f: FormRegistro): (r: seq<Problema>)
    ensures forall i :: 0 <= i < |r| ==> r[i].campo == BirthDate
    ensures f.birthDate.Some? && f.birthDate.value != "" && PatronFecha(f.birthDate.value) ==> r == []
  {
    ProblemasDeTexto(BirthDate, f.birthDate, MensajeFechaVacia,
                     [(f.birthDate.Some? && PatronFecha(f.birthDate.value), MensajeFormato)])
  }

  /** The password refinement, which runs only once every field is defined. */
  function Refinamiento(f: FormRegistro): (r: seq<Problema>)
    ensures forall i :: 0 <= i < |r| ==> r[i] == Problema(ConfirmPassword, MensajeContrasenas)
  {
    if TodosDefinidos(f) && f.password != f.confirmPassword then [Problema(ConfirmPassword, MensajeContrasenas)] else []
  }

  /** `registerSchema`: the problems of a form, field by field, then the
      password comparison. `emailValido` is the outcome of the email check. */
  function Problemas(f: FormRegistro, emailValido: bool): seq<Problema> {
    ProblemasDeTextos(f, emailValido)
    + (if f.termsAccepted then [] else [Problema(TermsAccepted, MensajeTerminos)])
    + Refinamiento(f)
  }

  /** A form is accepted exactly when every field is defined and non-empty, the
      email check passes, the password has at least six characters and matches
      its confirmation, the date has the pattern and the terms are accepted. */
  lemma ProblemasVacio(f: FormRegistro, emailValido: bool)
    ensures Problemas(f, emailValido) == [] <==>
      && TodosDefinidos(f)
      && f.name.value != "" && f.fullname.value != "" && f.email.value != "" && emailValido
      && |f.password.value| >= 6 && f.confirmPassword.value != "" && f.password == f.confirmPassword
      && PatronFecha(f.birthDate.value) && f.termsAccepted
  {
  }

  /** A password and confirmation that differ are reported on the confirmation
      field, as soon as every field is defined. */
  lemma ContrasenasDistintas(f: FormRegistro, emailValido: bool)
    requires TodosDefinidos(f)
    ensures Problema(ConfirmPassword, MensajeContrasenas) in Problemas(f, emailValido) <==> f.password != f.confirmPassword
  {
    var x := Problema(ConfirmPassword, MensajeContrasenas);
    assert |MensajeContrasenas| != |MensajeRequerido| && |MensajeContrasenas| != |MensajeConfirmacionVacia|;
    assert x !in ProblemasDeTextos(f, emailValido);
  }

  /** A defined password shorter than six characters is reported, and only then. */
  lemma ContrasenaCorta(f: FormRegistro, emailValido: bool)
    requires f.password.Some?
    ensures Problema(Password, MensajeMinimo) in Problemas(f, emailValido) <==> |f.password.value| < 6
  {
    assert Problema(Password, MensajeMinimo) != Problema(ConfirmPassword, MensajeContrasenas);
  }

  /** The terms must be exactly accepted. */
  lemma TerminosRequeridos(f: FormRegistro, emailValido: bool)
    ensures Problema(TermsAccepted, MensajeTerminos) in Problemas(f, emailValido) <==> !f.termsAccepted
  {
    var x := Problema(TermsAccepted, MensajeTerminos);
    assert x !in ProblemasDeTextos(f, emailValido);
    assert x !in Refinamiento(f);
  }

  /** A date with the pattern draws no date problem. */
  lemma FechaConPatronAceptada(f: FormRegistro, emailValido: bool)
    requires f.birthDate.Some? && PatronFecha(f.birthDate.value)
    ensures forall p :: p in Problemas(f, emailValido) ==> p.campo != BirthDate
  {
    var fecha := f.birthDate.value;
    assert fecha != "" by {
      assert |fecha| == 10;
    }
  }

  /** A date the field formatted from eight or more digits draws no date
      problem. */
  lemma FechaFormateadaAceptada(f: FormRegistro, emailValido: bool, text: string)
    requires |Digits(text)| >= 8 && f.birthDate == Some(FormatoFecha(text))
    ensures forall p :: p in Problemas(f, emailValido) ==> p.campo != BirthDate
  {
    FormatoCompleto(text);
    FechaConPatronAceptada(f, emailValido);
  }
}
