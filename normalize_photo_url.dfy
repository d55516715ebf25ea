/** Turning a stored photo path into a URL: absolute URLs pass through, and
    anything else is joined to the API's base address. */
module NormalizePhotoUrl {
  import opened Wrappers
  import opened Text

  const Http: string := "http://"
  const Https: string := "https://"

  predicate EsAbsoluta(s: string) {
    StartsWith(s, Http) || StartsWith(s, Https)
  }

  /** How the base address reads inside a template string: an unset
      environment variable prints as `undefined`. */
  function TextoBase(base: Option<string>): string {
    if base.Some? then base.value else "undefined"
  }

  /** `normalizePhotoUrl(photo)` with the configured base address `base`. */
  function Normalizar(photo: Option<string>, base: Option<string>): (r: Option<string>)
    ensures r.None? <==> photo.None? || photo.value == ""
  {
    if photo.None? || photo.value == "" then None
    else
      var trimmed := Trim(photo.value);
      if EsAbsoluta(trimmed) then Some(trimmed)
      else if StartsWith(trimmed, "/") then Some(TextoBase(base) + trimmed)
      else Some(TextoBase(base) + "/" + trimmed)
  }

  /** The three ways a non-empty input is resolved, after trimming. */
  lemma NormalizarCasos(photo: string, base: Option<string>)
    requires photo != ""
    ensures var t := Trim(photo); var r := Normalizar(Some(photo), base);
      && (EsAbsoluta(t) ==> r == Some(t))
      && (!EsAbsoluta(t) && StartsWith(t, "/") ==> r == Some(TextoBase(base) + t))
      && (!EsAbsoluta(t) && !StartsWith(t, "/") ==> r == Some(TextoBase(base) + "/" + t))
  {
  }

  /** An input of blanks only becomes the base address with a slash. */
  lemma NormalizarBlancos(photo: string, base: Option<string>)
    requires photo != "" && forall i :: 0 <= i < |photo| ==> IsWhitespace(photo[i])
    ensures Normalizar(Some(photo), base) == Some(TextoBase(base) + "/")
  {
    TrimEmptyIffBlank(photo);
    assert TextoBase(base) + "/" + [] == TextoBase(base) + "/";
  }

  lemma StartsWithConcat(a: string, b: string, p: string)
    requires StartsWith(a, p)
    ensures StartsWith(a + b, p)
  {
    assert (a + b)[..|p|] == a[..|p|];
  }

  /** An absolute base address joined to a path that ends in a non-blank
      character gives an absolute URL that trimming leaves alone. */
  lemma UnidaAbsoluta(base: string, resto: string)
    requires EsAbsoluta(base)
    requires resto != [] && !IsWhitespace(resto[|resto| - 1])
    ensures EsAbsoluta(base + resto) && Trim(base + resto) == base + resto
  {
    var u := base + resto;
    if StartsWith(base, Http) {
      StartsWithConcat(base, resto, Http);
    } else {
      StartsWithConcat(base, resto, Https);
    }
    assert u[0] == base[0] == 'h';
    assert u[|u| - 1] == resto[|resto| - 1];
    TrimOfTrimmed(u);
  }

  /** A trimmed absolute URL is its own normalisation. */
  lemma AbsolutaSeQueda(u: string, base: Option<string>)
    requires EsAbsoluta(u) && Trim(u) == u
    ensures Normalizar(Some(u), base) == Some(u)
  {
  }

  /** With an absolute base address, normalising a result again changes
      nothing. */
  lemma NormalizarIdempotente(photo: Option<string>, base: string)
    requires EsAbsoluta(base)
    ensures Normalizar(Normalizar(photo, Some(base)), Some(base)) == Normalizar(photo, Some(base))
  {
    if photo.Some? && photo.value != "" {
      var t := Trim(photo.value);
      if EsAbsoluta(t) {
        TrimIdempotent(photo.value);
        AbsolutaSeQueda(t, Some(base));
      } else {
        var resto := if StartsWith(t, "/") then t else "/" + t;
        NormalizarCasos(photo.value, Some(base));
        assert base + "/" + t == base + ("/" + t);
        UnidaAbsoluta(base, resto);
        AbsolutaSeQueda(base + resto, Some(base));
      }
    }
  }
}
