/** The date line of an event card: dates are shown day first, as
    `DD/MM/AAAA`, with fixed texts for a missing or unparsable date. */
module Evento {
  import opened Text
  import opened Fechas
  import Register

  /** The argument of `formatearFechaEuropea`: undefined, a string with the
      `Date` it parses to, or a `Date` object. */
  datatype EntradaFecha = Indefinida | Cadena(texto: FechaTexto) | Objeto(valor: Fecha)

  const SinFecha: string := "Fecha no disponible"
  const FechaInvalida: string := "Fecha inválida"

  /** `!fecha` */
  predicate Falsa(e: EntradaFecha) {
    e.Indefinida? || (e.Cadena? && e.texto.texto == "")
  }

  function FechaDe(e: EntradaFecha): Fecha
    requires !e.Indefinida?
  {
    if e.Cadena? then e.texto.valor else e.valor
  }

  /** The day, the 1-based month and the year, zero-padded to two digits but
      the year, separated by slashes. */
  function Componer(dia: int, mes: int, anio: int): string {
    PadStart2(IntToString(dia)) + "/" + PadStart2(IntToString(mes + 1)) + "/" + IntToString(anio)
  }

  /** `formatearFechaEuropea` */
  function FormatearFechaEuropea(e: EntradaFecha): (r: string)
    ensures Falsa(e) ==> r == SinFecha
    ensures !Falsa(e) && FechaDe(e).Invalida? ==> r == FechaInvalida
    ensures !Falsa(e) && FechaDe(e).Valida? ==> r == Componer(FechaDe(e).dia, FechaDe(e).mes, FechaDe(e).anio)
  {
    if Falsa(e) then SinFecha
    else
      var f := FechaDe(e);
      if f.Invalida? then FechaInvalida
      else Componer(f.dia, f.mes, f.anio)
  }

  /** A day or month number from 1 to 99 pads to exactly two digits. */
  lemma DosDigitos(n: int)
    requires 1 <= n < 100
    ensures |PadStart2(IntToString(n))| == 2
    ensures forall i :: 0 <= i < 2 ==> IsDigit(PadStart2(IntToString(n))[i])
  {
    if n < 10 {
      NatToStringLength(n, 1);
    } else {
      NatToStringLength(n, 2);
    }
  }

  /** The day comes first as two digits, then the 1-based month as two
      digits, then the year, separated by slashes and not by the dashes of
      `DD-MM-YYYY`. */
  lemma ComponerForma(dia: int, mes: int, anio: int)
    requires 1 <= dia <= 31 && 0 <= mes < 12
    ensures var r := Componer(dia, mes, anio);
      && |r| == 6 + |IntToString(anio)|
      && r[..2] == PadStart2(IntToString(dia)) && r[2] == '/'
      && r[3..5] == PadStart2(IntToString(mes + 1)) && r[5] == '/'
      && r[6..] == IntToString(anio)
  {
    DosDigitos(dia);
    DosDigitos(mes + 1);
    Trozos(PadStart2(IntToString(dia)), PadStart2(IntToString(mes + 1)), IntToString(anio));
  }

  /** Where the three parts sit in `a/b/c`. */
  lemma Trozos(a: string, b: string, c: string)
    ensures var r := a + "/" + b + "/" + c;
      && |r| == |a| + |b| + |c| + 2
      && r[..|a|] == a && r[|a|] == '/'
      && r[|a| + 1..|a| + 1 + |b|] == b && r[|a| + 1 + |b|] == '/'
      && r[|a| + 2 + |b|..] == c
  {
    var r := a + "/" + b + "/" + c;
    var p := a + "/";
    var q := p + b + "/";
    assert r == q + c;
    assert r[..|q|] == q && r[|q|..] == c;
    assert q[..|p|] == p && q[|p|..|p| + |b|] == b;
    assert p[..|a|] == a;
  }

  /** A valid date with a four-digit year is rendered in ten characters that
      match the `DD/MM/AAAA` pattern of the registration form. */
  lemma FormatoDiezCaracteres(e: EntradaFecha)
    requires !Falsa(e) && FechaDe(e).Valida? && Bien(FechaDe(e))
    requires 1000 <= FechaDe(e).anio <= 9999
    ensures |FormatearFechaEuropea(e)| == 10
    ensures Register.PatronFecha(FormatearFechaEuropea(e))
  {
    var f := FechaDe(e);
    ComponerForma(f.dia, f.mes, f.anio);
    DosDigitos(f.dia);
    DosDigitos(f.mes + 1);
    NatToStringLength(f.anio, 4);
    var r := Componer(f.dia, f.mes, f.anio);
    var d, m, y := r[..2], r[3..5], r[6..];
    forall i | 0 <= i < 10 && i != 2 && i != 5
      ensures IsDigit(r[i])
    {
      if i < 2 {
        assert r[i] == d[i];
      } else if i < 5 {
        assert r[i] == m[i - 3];
      } else {
        assert r[i] == y[i - 6];
      }
    }
  }
}
