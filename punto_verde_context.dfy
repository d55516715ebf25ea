/** The green-point context: the registry of drop-off points, the requests that
    create, update and delete one, and `verificarPuntoVerde`, which looks for a
    point of the current collaborator near an observed position and retries a
    bounded number of times. */
module PuntoVerdeContext {
  import opened Wrappers
  import opened Text
  import opened Js
  import opened Seqs
  import opened Http

  datatype PuntoVerde = PuntoVerde(
    id: Option<string>,
    latitud: Option<real>,
    longitud: Option<real>,
    direccion: Option<string>,
    nombre: Option<string>,
    descripcion: Option<string>,
    imagen: Option<string>,
    diasHorarioAtencion: Option<string>,
    isDeleted: Option<bool>,
    colaboradorId: Option<string>,
    residuosAceptados: Option<seq<string>>)

  /** An observed device position. */
  datatype Ubicacion = Ubicacion(latitude: real, longitude: real)

  const MaxIntentos: nat := 5
  /** Half the side of the axis-aligned box, in degrees, on both axes. */
  const Tolerancia: real := 0.002
  const MensajeNoCercano: string := "No se encontró un punto verde cercano"

  function Abs(x: real): real {
    if x < 0.0 then -x else x
  }

  // ---------------------------------------------------------------------------
  // The two filters of verificarPuntoVerde

  /** The owner filter: `colaboradorId === user?.colaborador?.id`, a comparison of
      two possibly undefined values. */
  function DelColaborador(colaboradorId: Option<string>): PuntoVerde -> bool {
    (p: PuntoVerde) => p.colaboradorId == colaboradorId
  }

  /** The box filter: a point with a missing or zero coordinate never passes;
      otherwise both differences are at most the tolerance. */
  function Cercano(location: Ubicacion): PuntoVerde -> bool {
    (p: PuntoVerde) =>
      TruthyNumber(p.latitud) && TruthyNumber(p.longitud)
      && Abs(p.latitud.value - location.latitude) <= Tolerancia
      && Abs(p.longitud.value - location.longitude) <= Tolerancia
  }

  /** Both tests at once. */
  function Coincide(colaboradorId: Option<string>, location: Ubicacion): PuntoVerde -> bool {
    (p: PuntoVerde) => DelColaborador(colaboradorId)(p) && Cercano(location)(p)
  }

  /** `puntosverdesExist`: the owner filter followed by the box filter. */
  function Candidatos(puntos: seq<PuntoVerde>, colaboradorId: Option<string>, location: Ubicacion): (r: seq<PuntoVerde>)
    ensures forall i :: 0 <= i < |r| ==> r[i] in puntos && r[i].colaboradorId == colaboradorId
    ensures forall i :: 0 <= i < |r| ==>
      && TruthyNumber(r[i].latitud) && TruthyNumber(r[i].longitud)
      && Abs(r[i].latitud.value - location.latitude) <= Tolerancia
      && Abs(r[i].longitud.value - location.longitude) <= Tolerancia
    ensures forall i :: 0 <= i < |puntos| && Coincide(colaboradorId, location)(puntos[i]) ==> puntos[i] in r
  {
    var propios := Filter(puntos, DelColaborador(colaboradorId));
    var r := Filter(propios, Cercano(location));
    assert forall i :: 0 <= i < |r| ==> Cercano(location)(r[i]);
    r
  }

  /** The candidate list is non-empty exactly when some point of the collection
      passes both tests, and its head, whose id the verification returns, is the
      first such point in collection order. */
  lemma PrimerCandidato(puntos: seq<PuntoVerde>, colaboradorId: Option<string>, location: Ubicacion)
    ensures var k := FindFirst(puntos, Coincide(colaboradorId, location));
      && (Candidatos(puntos, colaboradorId, location) != [] <==> k.Some?)
      && (k.Some? ==> Candidatos(puntos, colaboradorId, location)[0] == puntos[k.value])
  {
    FilterFilter(puntos, DelColaborador(colaboradorId), Cercano(location), Coincide(colaboradorId, location));
    FilterHeadIsFirst(puntos, Coincide(colaboradorId, location));
  }

  /** When the user has no collaborator id, the owner filter keeps exactly the
      points that have none either: `undefined === undefined`. */
  lemma SinColaboradorCoincidenLosHuerfanos(puntos: seq<PuntoVerde>, location: Ubicacion, i: nat)
    requires i < |puntos| && puntos[i].colaboradorId.None? && Cercano(location)(puntos[i])
    ensures puntos[i] in Candidatos(puntos, None, location)
  {
  }

  // ---------------------------------------------------------------------------
  // The verification loop

  /** `Encontrado` carries the id of the first candidate (possibly undefined) and
      the attempt that found it; `Fallido` the message of the error thrown after
      the last attempt. */
  datatype Verificacion = Encontrado(id: Option<string>, intento: nat) | Fallido(mensaje: string)

  function MensajeFinal(ultimo: string): string {
    "No se pudo verificar el punto verde después de " + NatToString(MaxIntentos) + " intentos: " + ultimo
  }

  /** The error an unsuccessful attempt ends with: the reload's error when the
      snapshot was empty and the reload failed, the "no nearby point" error
      otherwise. */
  function ErrorDelIntento(puntos: seq<PuntoVerde>, recarga: nat -> Option<string>, intento: nat): string {
    if puntos == [] && recarga(intento).Some? then recarga(intento).value else MensajeNoCercano
  }

  /** `verificarPuntoVerde`. `puntos` is the collection the call captured: a
      reload inside the loop replaces the context's list but not this snapshot.
      `recarga(n)` is the outcome of the reload requested on attempt `n` (the
      message it threw, or `None`). Out-parameters count the attempts made, the
      reloads requested and the waits between attempts. */
  method VerificarPuntoVerde(puntos: seq<PuntoVerde>, colaboradorId: Option<string>, location: Ubicacion,
                             recarga: nat -> Option<string>)
    returns (r: Verificacion, intentos: nat, recargas: nat, esperas: nat)
    ensures 1 <= intentos <= MaxIntentos && esperas == intentos - 1
    ensures r.Encontrado? <==> Candidatos(puntos, colaboradorId, location) != []
    ensures r.Encontrado? ==>
      r.id == Candidatos(puntos, colaboradorId, location)[0].id && r.intento == intentos == 1
    ensures r.Fallido? ==>
      intentos == MaxIntentos && r.mensaje == MensajeFinal(ErrorDelIntento(puntos, recarga, MaxIntentos))
    ensures recargas == if puntos == [] then intentos else 0
  {
    var intento: nat := 1;
    intentos, recargas, esperas := 1, 0, 0;
    while true
      invariant 1 <= intento <= MaxIntentos && intentos == intento
      invariant esperas == intento - 1
      invariant recargas == if puntos == [] then intento - 1 else 0
      invariant intento > 1 ==> Candidatos(puntos, colaboradorId, location) == []
      decreases MaxIntentos - intento
    {
      var error: string;
      var fallaRecarga: Option<string> := None;
      if |puntos| == 0 {
        recargas := recargas + 1;
        fallaRecarga := recarga(intento);
      }
      if fallaRecarga.Some? {
        error := fallaRecarga.value;
      } else {
        var candidatos := Candidatos(puntos, colaboradorId, location);
        if |candidatos| > 0 {
          r := Encontrado(candidatos[0].id, intento);
          return;
        }
        error := MensajeNoCercano;
      }
      if intento == MaxIntentos {
        r := Fallido(MensajeFinal(error));
        return;
      }
      esperas := esperas + 1;
      intento := intento + 1;
      intentos := intento;
    }
  }

  // ---------------------------------------------------------------------------
  // Image part of the create request

  /** `data.imagen`: absent, a URI string, or an image-picker asset whose `uri`
      may be missing. */
  datatype Imagen = SinImagen | Uri(uri: string) | Asset(assetUri: Option<string>)

  /** The file part appended as `imagen`. */
  datatype Archivo = Archivo(uri: string, name: string, mime: string)

  /** `maybeUri`, when `data.imagen` is truthy and so is the URI it yields. */
  function UriDeImagen(imagen: Imagen): (r: Option<string>)
    ensures r.Some? ==> r.value != ""
    ensures r.None? <==> imagen == SinImagen || imagen == Uri("") || imagen == Asset(None) || imagen == Asset(Some(""))
  {
    match imagen
    case SinImagen => None
    case Uri(u) => if u != "" then Some(u) else None
    case Asset(u) => if TruthyText(u) then u else None
  }

  /** The name generated when the URI ends in `/`: `imagen_${Date.now()}.jpg`. */
  function NombreGenerado(ahora: nat): string {
    "imagen_" + NatToString(ahora) + ".jpg"
  }

  /** `uri.split("/").pop() || \`imagen_${Date.now()}.jpg\``: the text after the
      last `/` of the URI (all of it when it has none), or the generated name
      when that text is empty. */
  function NombreArchivo(uri: string, ahora: nat): (r: string)
    ensures r != "" && '/' !in r
    ensures r == NombreGenerado(ahora) ||
      (|r| <= |uri| && uri[|uri| - |r|..] == r && (|r| < |uri| ==> uri[|uri| - |r| - 1] == '/'))
    ensures (uri == [] || uri[|uri| - 1] == '/') ==> r == NombreGenerado(ahora)
  {
    var ultimo := AfterLast(uri, '/');
    if ultimo != "" then ultimo
    else
      assert forall i :: 0 <= i < |NatToString(ahora)| ==> NatToString(ahora)[i] != '/';
      NombreGenerado(ahora)
  }

  /** `filename.split(".").pop()?.toLowerCase()`: the text after the last `.`
      (the whole name when it has none), lower-cased. */
  function Extension(nombre: string): (r: string)
    ensures '.' !in r && |r| <= |nombre|
  {
    var e := AfterLast(nombre, '.');
    var r := ToLowerAscii(e);
    assert forall i :: 0 <= i < |r| ==> r[i] != '.' by {
      forall i | 0 <= i < |r| ensures r[i] != '.' { assert e[i] != '.'; }
    }
    r
  }

  function TipoMime(ext: string): (r: string)
    ensures r == "image/png" <==> ext == "png"
    ensures r == "image/webp" <==> ext == "webp"
    ensures r == "image/jpeg" <==> ext != "png" && ext != "webp"
  {
    if ext == "png" then "image/png" else if ext == "webp" then "image/webp" else "image/jpeg"
  }

  function ArchivoDe(uri: string, ahora: nat): Archivo {
    var nombre := NombreArchivo(uri, ahora);
    Archivo(uri, nombre, TipoMime(Extension(nombre)))
  }

  /** A file is named after the URI's last path segment. */
  lemma ArchivoDeRuta(ruta: string, nombre: string, ahora: nat)
    requires nombre != "" && '/' !in nombre
    ensures ArchivoDe(ruta + ['/'] + nombre, ahora) ==
      Archivo(ruta + ['/'] + nombre, nombre, TipoMime(Extension(nombre)))
  {
    AfterLastOf(ruta, '/', nombre);
  }

  /** The extension is the text after the last dot, lower-cased. */
  lemma ExtensionDe(base: string, ext: string)
    requires '.' !in ext
    ensures Extension(base + ['.'] + ext) == ToLowerAscii(ext)
  {
    AfterLastOf(base, '.', ext);
  }

  /** A name without a dot is its own extension, lower-cased. */
  lemma ExtensionSinPunto(nombre: string)
    requires '.' !in nombre
    ensures Extension(nombre) == ToLowerAscii(nombre)
  {
    var e := AfterLast(nombre, '.');
    assert |e| == |nombre|;
  }

  /** The extension is compared case-insensitively: `.PNG` is sent as PNG. */
  lemma MimePngMayusculas(base: string)
    ensures TipoMime(Extension(base + ".PNG")) == "image/png"
  {
    assert base + ".PNG" == base + ['.'] + "PNG";
    ExtensionDe(base, "PNG");
    assert ToLowerAscii("PNG") == "png";
  }

  /** The generated name has the extension `jpg`. */
  lemma ExtensionGenerada(ahora: nat)
    ensures Extension(NombreGenerado(ahora)) == "jpg"
  {
    var base := "imagen_" + NatToString(ahora);
    assert NombreGenerado(ahora) == base + ['.'] + "jpg";
    ExtensionDe(base, "jpg");
    assert ToLowerAscii("jpg") == "jpg";
  }

  /** A URI that ends in `/` is sent under the generated name, as JPEG. */
  lemma ArchivoDeCarpeta(ruta: string, ahora: nat)
    ensures ArchivoDe(ruta + ['/'], ahora) == Archivo(ruta + ['/'], NombreGenerado(ahora), "image/jpeg")
  {
    var uri := ruta + ['/'];
    assert uri[|uri| - 1] == '/';
    ExtensionGenerada(ahora);
  }

  // ---------------------------------------------------------------------------
  // FormData of the create and update requests

  /** The field names the two requests use. */
  datatype Clave =
    | Nombre | Descripcion | Direccion | Latitud | Longitud | DiasHorarioAtencion
    | ColaboradorIdClave | ResiduosAceptados | ImagenClave

  /** A FormData value: a text, a number (sent as `String(n)`), or a file part. */
  datatype Valor = Texto(s: string) | Numero(n: real) | Fichero(archivo: Archivo)

  datatype Campo = Campo(clave: Clave, valor: Valor)

  /** `crearPuntoVerde`'s `data` argument. `residuosAceptados` is `None` when the
      field is not an array; its elements may be undefined or null (`None`). */
  datatype DatosPuntoVerde = DatosPuntoVerde(
    nombre: Option<string>,
    descripcion: Option<string>,
    direccion: Option<string>,
    latitud: Option<real>,
    longitud: Option<real>,
    diasHorarioAtencion: Option<string>,
    residuosAceptados: Option<seq<Option<string>>>,
    imagen: Imagen)

  /** The values appended under `clave`, in order (`formData.getAll(clave)`). */
  function ValoresDe(form: seq<Campo>, clave: Clave): seq<Valor> {
    if form == [] then []
    else
      ValoresDe(form[..|form| - 1], clave)
      + (if form[|form| - 1].clave == clave then [form[|form| - 1].valor] else [])
  }

  lemma {:induction false} ValoresDeAppend(a: seq<Campo>, b: seq<Campo>, clave: Clave)
    ensures ValoresDe(a + b, clave) == ValoresDe(a, clave) + ValoresDe(b, clave)
  {
    if b == [] {
      assert a + b == a;
    } else {
      assert (a + b)[..|a + b| - 1] == a + b[..|b| - 1];
      ValoresDeAppend(a, b[..|b| - 1], clave);
    }
  }

  /** `if (x) formData.append(clave, String(x))` for a text field. */
  function SiNoVacio(clave: Clave, v: Option<string>): seq<Campo> {
    if TruthyText(v) then [Campo(clave, Texto(v.value))] else []
  }

  /** `if (typeof x !== "undefined") formData.append(clave, String(x))`. */
  function SiDefinido(clave: Clave, v: Option<real>): seq<Campo> {
    if v.Some? then [Campo(clave, Numero(v.value))] else []
  }

  /** One `residuosAceptados` entry per defined, non-null element, in order. */
  function CamposResiduos(rs: seq<Option<string>>): seq<Campo> {
    if rs == [] then []
    else
      CamposResiduos(rs[..|rs| - 1])
      + (if rs[|rs| - 1].Some? then [Campo(ResiduosAceptados, Texto(rs[|rs| - 1].value))] else [])
  }

  /** The defined, non-null elements of a list, in order. */
  function Presentes(rs: seq<Option<string>>): (r: seq<string>)
    ensures |r| <= |rs|
  {
    if rs == [] then []
    else Presentes(rs[..|rs| - 1]) + (if rs[|rs| - 1].Some? then [rs[|rs| - 1].value] else [])
  }

  function Textos(xs: seq<string>): (r: seq<Valor>)
    ensures |r| == |xs| && forall i :: 0 <= i < |xs| ==> r[i] == Texto(xs[i])
  {
    if xs == [] then [] else Textos(xs[..|xs| - 1]) + [Texto(xs[|xs| - 1])]
  }

  function CamposImagen(imagen: Imagen, ahora: nat): seq<Campo> {
    match UriDeImagen(imagen)
    case None => []
    case Some(u) => [Campo(ImagenClave, Fichero(ArchivoDe(u, ahora)))]
  }

  /** The text and coordinate fields of the create request, in append order. */
  function Cabecera(data: DatosPuntoVerde, colaboradorId: Option<string>): seq<Campo> {
    SiNoVacio(Nombre, data.nombre) + SiNoVacio(Descripcion, data.descripcion)
    + SiNoVacio(Direccion, data.direccion) + SiDefinido(Latitud, data.latitud)
    + SiDefinido(Longitud, data.longitud) + SiNoVacio(DiasHorarioAtencion, data.diasHorarioAtencion)
    + SiNoVacio(ColaboradorIdClave, colaboradorId)
  }

  function ResiduosDe(data: DatosPuntoVerde): seq<Campo> {
    if data.residuosAceptados.Some? then CamposResiduos(data.residuosAceptados.value) else []
  }

  /** The FormData `crearPuntoVerde` builds, in append order. */
  function FormularioCreacion(data: DatosPuntoVerde, colaboradorId: Option<string>, ahora: nat): seq<Campo> {
    Cabecera(data, colaboradorId) + ResiduosDe(data) + CamposImagen(data.imagen, ahora)
  }

  /** Builds the create request's FormData by successive appends. */
  method CrearFormData(data: DatosPuntoVerde, colaboradorId: Option<string>, ahora: nat) returns (form: seq<Campo>)
    ensures form == FormularioCreacion(data, colaboradorId, ahora)
  {
    form := SiNoVacio(Nombre, data.nombre);
    form := form + SiNoVacio(Descripcion, data.descripcion);
    form := form + SiNoVacio(Direccion, data.direccion);
    form := form + SiDefinido(Latitud, data.latitud);
    form := form + SiDefinido(Longitud, data.longitud);
    form := form + SiNoVacio(DiasHorarioAtencion, data.diasHorarioAtencion);
    form := form + SiNoVacio(ColaboradorIdClave, colaboradorId);
    assert form == Cabecera(data, colaboradorId);
    if data.residuosAceptados.Some? {
      form := AgregarResiduos(form, data.residuosAceptados.value);
    }
    assert form == Cabecera(data, colaboradorId) + ResiduosDe(data);
    var u := UriDeImagen(data.imagen);
    if u.Some? {
      form := form + [Campo(ImagenClave, Fichero(ArchivoDe(u.value, ahora)))];
    }
    assert form == Cabecera(data, colaboradorId) + ResiduosDe(data) + CamposImagen(data.imagen, ahora);
  }

  /** The `forEach` over the accepted materials: appends one entry per defined,
      non-null element. */
  method AgregarResiduos(inicio: seq<Campo>, rs: seq<Option<string>>) returns (form: seq<Campo>)
    ensures form == inicio + CamposResiduos(rs)
  {
    form := inicio;
    var i := 0;
    while i < |rs|
      invariant 0 <= i <= |rs|
      invariant form == inicio + CamposResiduos(rs[..i])
    {
      assert rs[..i + 1][..i] == rs[..i];
      if rs[i].Some? {
        form := form + [Campo(ResiduosAceptados, Texto(rs[i].value))];
      }
      i := i + 1;
    }
    assert rs[..|rs|] == rs;
  }

  lemma {:induction false} ValoresDeResiduos(rs: seq<Option<string>>, clave: Clave)
    ensures ValoresDe(CamposResiduos(rs), clave) == if clave == ResiduosAceptados then Textos(Presentes(rs)) else []
  {
    if rs != [] {
      var init := rs[..|rs| - 1];
      ValoresDeResiduos(init, clave);
      var last := if rs[|rs| - 1].Some? then [Campo(ResiduosAceptados, Texto(rs[|rs| - 1].value))] else [];
      ValoresDeAppend(CamposResiduos(init), last, clave);
      assert ValoresDe(last, clave) == (if last != [] && clave == ResiduosAceptados then [last[0].valor] else []) by {
        if last != [] {
          assert last[..0] == [];
        }
      }
    }
  }

  lemma ValoresDeUno(c: Campo, clave: Clave)
    ensures ValoresDe([c], clave) == if c.clave == clave then [c.valor] else []
  {
    assert [c][..0] == [];
  }

  /** The values a text field appended only when non-empty brings under `clave`. */
  function TextoEn(k: Clave, v: Option<string>, clave: Clave): seq<Valor> {
    if k == clave && TruthyText(v) then [Texto(v.value)] else []
  }

  /** The values a number appended only when defined brings under `clave`. */
  function NumeroEn(k: Clave, v: Option<real>, clave: Clave): seq<Valor> {
    if k == clave && v.Some? then [Numero(v.value)] else []
  }

  lemma ValoresDeSiNoVacio(k: Clave, v: Option<string>, clave: Clave)
    ensures ValoresDe(SiNoVacio(k, v), clave) == TextoEn(k, v, clave)
  {
    if TruthyText(v) {
      ValoresDeUno(Campo(k, Texto(v.value)), clave);
    }
  }

  lemma ValoresDeSiDefinido(k: Clave, v: Option<real>, clave: Clave)
    ensures ValoresDe(SiDefinido(k, v), clave) == NumeroEn(k, v, clave)
  {
    if v.Some? {
      ValoresDeUno(Campo(k, Numero(v.value)), clave);
    }
  }

  lemma ValoresDeImagen(imagen: Imagen, ahora: nat, clave: Clave)
    ensures ValoresDe(CamposImagen(imagen, ahora), clave) ==
      if clave == ImagenClave && UriDeImagen(imagen).Some? then [Fichero(ArchivoDe(UriDeImagen(imagen).value, ahora))] else []
  {
    if UriDeImagen(imagen).Some? {
      ValoresDeUno(Campo(ImagenClave, Fichero(ArchivoDe(UriDeImagen(imagen).value, ahora))), clave);
    }
  }

  lemma ValoresDeCabecera(data: DatosPuntoVerde, colaboradorId: Option<string>, clave: Clave)
    ensures ValoresDe(Cabecera(data, colaboradorId), clave) ==
      TextoEn(Nombre, data.nombre, clave) + TextoEn(Descripcion, data.descripcion, clave)
      + TextoEn(Direccion, data.direccion, clave) + NumeroEn(Latitud, data.latitud, clave)
      + NumeroEn(Longitud, data.longitud, clave)
      + TextoEn(DiasHorarioAtencion, data.diasHorarioAtencion, clave)
      + TextoEn(ColaboradorIdClave, colaboradorId, clave)
  {
    var p1, p2, p3 := SiNoVacio(Nombre, data.nombre), SiNoVacio(Descripcion, data.descripcion), SiNoVacio(Direccion, data.direccion);
    var p4, p5 := SiDefinido(Latitud, data.latitud), SiDefinido(Longitud, data.longitud);
    var p6, p7 := SiNoVacio(DiasHorarioAtencion, data.diasHorarioAtencion), SiNoVacio(ColaboradorIdClave, colaboradorId);
    ValoresDeAppend(p1 + p2 + p3 + p4 + p5 + p6, p7, clave);
    ValoresDeAppend(p1 + p2 + p3 + p4 + p5, p6, clave);
    ValoresDeAppend(p1 + p2 + p3 + p4, p5, clave);
    ValoresDeAppend(p1 + p2 + p3, p4, clave);
    ValoresDeAppend(p1 + p2, p3, clave);
    ValoresDeAppend(p1, p2, clave);
    ValoresDeSiNoVacio(Nombre, data.nombre, clave);
    ValoresDeSiNoVacio(Descripcion, data.descripcion, clave);
    ValoresDeSiNoVacio(Direccion, data.direccion, clave);
    ValoresDeSiDefinido(Latitud, data.latitud, clave);
    ValoresDeSiDefinido(Longitud, data.longitud, clave);
    ValoresDeSiNoVacio(DiasHorarioAtencion, data.diasHorarioAtencion, clave);
    ValoresDeSiNoVacio(ColaboradorIdClave, colaboradorId, clave);
  }

  /** What the create request carries under each field name: a text field
      only when it is non-empty, a coordinate whenever it is defined (zero
      included), the collaborator id when it is truthy, one `residuosAceptados`
      entry per defined, non-null material in order, and the image as a file
      part with the derived name and MIME type when a URI is present. */
  function Esperados(data: DatosPuntoVerde, colaboradorId: Option<string>, ahora: nat, clave: Clave): seq<Valor> {
    match clave
    case Nombre => if TruthyText(data.nombre) then [Texto(data.nombre.value)] else []
    case Descripcion => if TruthyText(data.descripcion) then [Texto(data.descripcion.value)] else []
    case Direccion => if TruthyText(data.direccion) then [Texto(data.direccion.value)] else []
    case Latitud => if data.latitud.Some? then [Numero(data.latitud.value)] else []
    case Longitud => if data.longitud.Some? then [Numero(data.longitud.value)] else []
    case DiasHorarioAtencion =>
      if TruthyText(data.diasHorarioAtencion) then [Texto(data.diasHorarioAtencion.value)] else []
    case ColaboradorIdClave => if TruthyText(colaboradorId) then [Texto(colaboradorId.value)] else []
    case ResiduosAceptados =>
      if data.residuosAceptados.Some? then Textos(Presentes(data.residuosAceptados.value)) else []
    case ImagenClave =>
      if UriDeImagen(data.imagen).Some? then [Fichero(ArchivoDe(UriDeImagen(data.imagen).value, ahora))] else []
  }

  /** The create request built by successive appends carries, under every
      field name, exactly the values `Esperados` describes. */
  lemma ValoresDeCreacion(data: DatosPuntoVerde, colaboradorId: Option<string>, ahora: nat, clave: Clave)
    ensures ValoresDe(FormularioCreacion(data, colaboradorId, ahora), clave) == Esperados(data, colaboradorId, ahora, clave)
  {
    var cab, res, img := Cabecera(data, colaboradorId), ResiduosDe(data), CamposImagen(data.imagen, ahora);
    ValoresDeAppend(cab + res, img, clave);
    ValoresDeAppend(cab, res, clave);
    ValoresDeCabeceraEsperados(data, colaboradorId, ahora, clave);
    if data.residuosAceptados.Some? {
      ValoresDeResiduos(data.residuosAceptados.value, clave);
    }
    ValoresDeImagen(data.imagen, ahora, clave);
  }

  lemma ValoresDeCabeceraEsperados(data: DatosPuntoVerde, colaboradorId: Option<string>, ahora: nat, clave: Clave)
    ensures ValoresDe(Cabecera(data, colaboradorId), clave) ==
      if clave == ResiduosAceptados || clave == ImagenClave then [] else Esperados(data, colaboradorId, ahora, clave)
  {
    ValoresDeCabecera(data, colaboradorId, clave);
    UnaSolaParte(TextoEn(Nombre, data.nombre, clave), TextoEn(Descripcion, data.descripcion, clave),
      TextoEn(Direccion, data.direccion, clave), NumeroEn(Latitud, data.latitud, clave),
      NumeroEn(Longitud, data.longitud, clave), TextoEn(DiasHorarioAtencion, data.diasHorarioAtencion, clave),
      TextoEn(ColaboradorIdClave, colaboradorId, clave));
  }

  /** A concatenation of seven parts of which at most one is non-empty is
      that part. */
  lemma UnaSolaParte<T>(a: seq<T>, b: seq<T>, c: seq<T>, d: seq<T>, e: seq<T>, f: seq<T>, g: seq<T>)
    ensures b == c == d == e == f == g == [] ==> a + b + c + d + e + f + g == a
    ensures a == c == d == e == f == g == [] ==> a + b + c + d + e + f + g == b
    ensures a == b == d == e == f == g == [] ==> a + b + c + d + e + f + g == c
    ensures a == b == c == e == f == g == [] ==> a + b + c + d + e + f + g == d
    ensures a == b == c == d == f == g == [] ==> a + b + c + d + e + f + g == e
    ensures a == b == c == d == e == g == [] ==> a + b + c + d + e + f + g == f
    ensures a == b == c == d == e == f == [] ==> a + b + c + d + e + f + g == g
  {
  }

  /** `actualizarPuntoVerde`'s `data` argument. */
  datatype DatosActualizacion = DatosActualizacion(
    nombre: Option<string>, descripcion: Option<string>, diasHorarioAtencion: Option<string>)

  /** The FormData of the update request, in append order. */
  function FormularioActualizacion(data: DatosActualizacion): seq<Campo> {
    SiNoVacio(Nombre, data.nombre) + SiNoVacio(Descripcion, data.descripcion)
    + SiNoVacio(DiasHorarioAtencion, data.diasHorarioAtencion)
  }

  /** The update request carries only nombre, descripcion and
      diasHorarioAtencion, each only when non-empty. */
  lemma CamposDeActualizacion(data: DatosActualizacion)
    ensures var form := FormularioActualizacion(data);
      && (forall i :: 0 <= i < |form| ==>
            form[i].clave == Nombre || form[i].clave == Descripcion || form[i].clave == DiasHorarioAtencion)
      && ValoresDe(form, Nombre) == (if TruthyText(data.nombre) then [Texto(data.nombre.value)] else [])
      && ValoresDe(form, Descripcion) == (if TruthyText(data.descripcion) then [Texto(data.descripcion.value)] else [])
      && ValoresDe(form, DiasHorarioAtencion) ==
           (if TruthyText(data.diasHorarioAtencion) then [Texto(data.diasHorarioAtencion.value)] else [])
  {
    var p1, p2, p3 := SiNoVacio(Nombre, data.nombre), SiNoVacio(Descripcion, data.descripcion),
      SiNoVacio(DiasHorarioAtencion, data.diasHorarioAtencion);
    ValoresDeActualizacion(data, Nombre);
    ValoresDeActualizacion(data, Descripcion);
    ValoresDeActualizacion(data, DiasHorarioAtencion);
    var form := p1 + p2 + p3;
    forall i | 0 <= i < |form|
      ensures form[i].clave == Nombre || form[i].clave == Descripcion || form[i].clave == DiasHorarioAtencion
    {
      if i < |p1| {
        assert form[i] == p1[i];
      } else if i < |p1| + |p2| {
        assert form[i] == p2[i - |p1|];
      } else {
        assert form[i] == p3[i - |p1| - |p2|];
      }
    }
  }

  lemma ValoresDeActualizacion(data: DatosActualizacion, clave: Clave)
    ensures ValoresDe(FormularioActualizacion(data), clave) ==
      TextoEn(Nombre, data.nombre, clave) + TextoEn(Descripcion, data.descripcion, clave)
      + TextoEn(DiasHorarioAtencion, data.diasHorarioAtencion, clave)
  {
    var p1, p2, p3 := SiNoVacio(Nombre, data.nombre), SiNoVacio(Descripcion, data.descripcion),
      SiNoVacio(DiasHorarioAtencion, data.diasHorarioAtencion);
    ValoresDeAppend(p1 + p2, p3, clave);
    ValoresDeAppend(p1, p2, clave);
    ValoresDeSiNoVacio(Nombre, data.nombre, clave);
    ValoresDeSiNoVacio(Descripcion, data.descripcion, clave);
    ValoresDeSiNoVacio(DiasHorarioAtencion, data.diasHorarioAtencion, clave);
  }


  // ---------------------------------------------------------------------------
  // The registry held by the context

  /** The context's state: the cached collection and the loading flag. Each
      operation takes the backend's answers as parameters. */
  class Registro {
    var puntosVerdes: seq<PuntoVerde>
    var isLoading: bool

    constructor ()
      ensures puntosVerdes == [] && !isLoading
    {
      puntosVerdes := [];
      isLoading := false;
    }

    /** `cargarPuntosVerdes`: replaces the collection wholesale on success and
        leaves it unchanged on failure, whose message it rethrows. */
    method CargarPuntosVerdes(respuesta: Response<seq<PuntoVerde>>) returns (error: Option<string>)
      modifies this
      ensures error == ErrorOf(respuesta) && !isLoading
      ensures puntosVerdes == if respuesta.Ok? then respuesta.body else old(puntosVerdes)
    {
      isLoading := true;
      error := ErrorOf(respuesta);
      if respuesta.Ok? {
        puntosVerdes := respuesta.body;
      }
      isLoading := false;
    }

    /** `crearPuntoVerde`: builds the FormData, posts it, and reloads the
        collection only after an ok response. */
    method CrearPuntoVerde(data: DatosPuntoVerde, colaboradorId: Option<string>, ahora: nat,
                           respuesta: Response<()>, recarga: Response<seq<PuntoVerde>>)
      returns (enviado: seq<Campo>, error: Option<string>)
      modifies this
      ensures enviado == FormularioCreacion(data, colaboradorId, ahora) && !isLoading
      ensures !respuesta.Ok? ==> error == ErrorOf(respuesta) && puntosVerdes == old(puntosVerdes)
      ensures respuesta.Ok? ==> error == ErrorOf(recarga)
      ensures respuesta.Ok? ==> puntosVerdes == if recarga.Ok? then recarga.body else old(puntosVerdes)
    {
      isLoading := true;
      enviado := CrearFormData(data, colaboradorId, ahora);
      error := ErrorOf(respuesta);
      if respuesta.Ok? {
        error := CargarPuntosVerdes(recarga);
      }
      isLoading := false;
    }

    /** `actualizarPuntoVerde`: the same flow with the three editable fields. */
    method ActualizarPuntoVerde(data: DatosActualizacion, respuesta: Response<()>, recarga: Response<seq<PuntoVerde>>)
      returns (enviado: seq<Campo>, error: Option<string>)
      modifies this
      ensures enviado == FormularioActualizacion(data) && !isLoading
      ensures !respuesta.Ok? ==> error == ErrorOf(respuesta) && puntosVerdes == old(puntosVerdes)
      ensures respuesta.Ok? ==> error == ErrorOf(recarga)
      ensures respuesta.Ok? ==> puntosVerdes == if recarga.Ok? then recarga.body else old(puntosVerdes)
    {
      isLoading := true;
      enviado := FormularioActualizacion(data);
      error := ErrorOf(respuesta);
      if respuesta.Ok? {
        error := CargarPuntosVerdes(recarga);
      }
      isLoading := false;
    }

    /** `eliminarPuntoVerde`: a DELETE followed, after an ok response, by a reload. */
    method EliminarPuntoVerde(respuesta: Response<()>, recarga: Response<seq<PuntoVerde>>)
      returns (error: Option<string>)
      modifies this
      ensures !isLoading
      ensures !respuesta.Ok? ==> error == ErrorOf(respuesta) && puntosVerdes == old(puntosVerdes)
      ensures respuesta.Ok? ==> error == ErrorOf(recarga)
      ensures respuesta.Ok? ==> puntosVerdes == if recarga.Ok? then recarga.body else old(puntosVerdes)
    {
      isLoading := true;
      error := ErrorOf(respuesta);
      if respuesta.Ok? {
        error := CargarPuntosVerdes(recarga);
      }
      isLoading := false;
    }
  }
}
