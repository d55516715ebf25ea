/** The dialog that creates a green point: the choice of accepted materials, the
    position picked on the map or found by address search, the form schema, and
    the submission that hands the assembled data to `crearPuntoVerde`. */
module ModalCrearPV {
  import opened Wrappers
  import opened Text
  import opened Js
  import opened Seqs
  import PV = PuntoVerdeContext

  // ---------------------------------------------------------------------------
  // The material selection

  function Distinto(material: string): string -> bool {
    (r: string) => r != material
  }

  /** `toggleResiduo`: a selected material is removed, every copy of it; any
      other is appended at the end. */
  function ToggleResiduo(prev: seq<string>, material: string): seq<string> {
    if material in prev then Filter(prev, Distinto(material)) else prev + [material]
  }

  /** An absent material is appended, and nothing else changes. */
  lemma ToggleAgrega(prev: seq<string>, material: string)
    requires material !in prev
    ensures ToggleResiduo(prev, material) == prev + [material]
    ensures material in ToggleResiduo(prev, material)
  {
  }

  /** A present material disappears, every other material keeps its number of
      copies, and the list shrinks. */
  lemma ToggleQuita(prev: seq<string>, material: string, otro: string)
    requires material in prev
    ensures var r := ToggleResiduo(prev, material);
      && material !in r
      && (otro != material ==> multiset(r)[otro] == multiset(prev)[otro])
      && |r| < |prev|
  {
    FilterMultiset(prev, Distinto(material), otro);
    FilterMultiset(prev, Distinto(material), material);
    FilterShorter(prev, Distinto(material), material);
  }

  /** Removing a material that occurs once keeps the other materials in their
      order. */
  lemma ToggleQuitaUna(a: seq<string>, b: seq<string>, material: string)
    requires material !in a + b
    ensures ToggleResiduo(a + [material] + b, material) == a + b
  {
    assert (a + [material] + b)[|a|] == material;
    forall i | 0 <= i < |a| ensures a[i] != material {
      assert a[i] == (a + b)[i];
    }
    forall i | 0 <= i < |b| ensures b[i] != material {
      assert b[i] == (a + b)[|a| + i];
    }
    FilterDropsOne(a, material, b, Distinto(material));
  }

  /** Toggling a material twice on a list that lacks it restores the list. */
  lemma ToggleDosVeces(prev: seq<string>, material: string)
    requires material !in prev
    ensures ToggleResiduo(ToggleResiduo(prev, material), material) == prev
  {
    var f := Distinto(material);
    FilterAppend(prev, [material], f);
    FilterAll(prev, f);
    assert Filter([material], f) == [];
  }

  // ---------------------------------------------------------------------------
  // The form schema

  /** The form's values. */
  datatype FormPV = FormPV(
    nombre: string, direccion: string, descripcion: string, diasHorarioAtencion: string,
    imagen: Option<string>, lat: real, lng: real)

  /** The default values, which `reset()` restores. The coordinates are taken
      from the state once, while it is still empty, so they are zero. */
  const FormPorDefecto: FormPV := FormPV("", "", "", "", Some(""), 0.0, 0.0)

  /** The messages of the failing checks, in the schema's order. */
  function ProblemasPV(f: FormPV): seq<string> {
    (if f.nombre == "" then ["El nombre es obligatorio"] else [])
    + (if f.direccion == "" then ["La dirección es obligatoria"] else [])
    + (if f.descripcion == "" then ["La descripción es obligatoria"] else [])
    + (if f.diasHorarioAtencion == "" then ["Los días de atención son obligatorios"] else [])
    + (if f.lat < -90.0 then ["La latitud debe ser mayor a -90"] else [])
    + (if f.lat > 90.0 then ["La latitud debe ser menor a 90"] else [])
    + (if f.lng < -180.0 then ["La longitud debe ser mayor a -180"] else [])
    + (if f.lng > 180.0 then ["La longitud debe ser menor a 180"] else [])
  }

  /** The schema accepts exactly the forms with four non-empty texts, a latitude
      in [-90, 90] and a longitude in [-180, 180]. */
  lemma ProblemasPVVacio(f: FormPV)
    ensures ProblemasPV(f) == [] <==>
      && f.nombre != "" && f.direccion != "" && f.descripcion != "" && f.diasHorarioAtencion != ""
      && -90.0 <= f.lat <= 90.0 && -180.0 <= f.lng <= 180.0
  {
  }

  /** Since the form's own coordinates stay at their zero defaults, the range
      checks never reject a form; only empty texts do. */
  lemma RangoSiempreAceptado(f: FormPV)
    requires f.lat == FormPorDefecto.lat && f.lng == FormPorDefecto.lng
    ensures ProblemasPV(f) == [] <==>
      f.nombre != "" && f.direccion != "" && f.descripcion != "" && f.diasHorarioAtencion != ""
  {
    ProblemasPVVacio(f);
  }

  // ---------------------------------------------------------------------------
  // Positions from the map and from address search

  datatype Coordenadas = Coordenadas(lat: real, lng: real)

  datatype Region = Region(latitude: real, longitude: real, latitudeDelta: real, longitudeDelta: real)

  /** A coordinate object of a map event; either field may be missing. */
  datatype Punto = Punto(latitude: Option<real>, longitude: Option<real>)

  /** The three places a map press may carry its coordinate. */
  datatype EventoMapa = EventoMapa(
    nativeCoordinate: Option<Punto>, nativeCoordinatePoint: Option<Punto>, coordinate: Option<Punto>)

  /** `event.nativeEvent?.coordinate || event.nativeEvent?.coordinatePoint || event.coordinate` */
  function PuntoDelEvento(e: EventoMapa): (r: Option<Punto>)
    ensures r.None? <==> e.nativeCoordinate.None? && e.nativeCoordinatePoint.None? && e.coordinate.None?
    ensures e.nativeCoordinate.Some? ==> r == e.nativeCoordinate
    ensures e.nativeCoordinate.None? && e.nativeCoordinatePoint.Some? ==> r == e.nativeCoordinatePoint
  {
    if e.nativeCoordinate.Some? then e.nativeCoordinate
    else if e.nativeCoordinatePoint.Some? then e.nativeCoordinatePoint
    else e.coordinate
  }

  /** The position a map press selects, if it passes `!latitude || !longitude`. */
  function PosicionDelEvento(e: EventoMapa): (r: Option<Coordenadas>)
    ensures r.Some? <==>
      PuntoDelEvento(e).Some?
      && TruthyNumber(PuntoDelEvento(e).value.latitude) && TruthyNumber(PuntoDelEvento(e).value.longitude)
    ensures r.Some? ==> r.value.lat != 0.0 && r.value.lng != 0.0
  {
    var p := PuntoDelEvento(e);
    if p.Some? && TruthyNumber(p.value.latitude) && TruthyNumber(p.value.longitude)
    then Some(Coordenadas(p.value.latitude.value, p.value.longitude.value))
    else None
  }

  /** A feature of a geocoding answer: its `geometry.coordinates`, if present. */
  datatype Feature = Feature(coordinates: Option<seq<real>>)

  /** The answer to a forward geocoding request: the request threw, the
      response was not ok, or an ok response with its `features`, if any. */
  datatype Geocodificacion = Excepcion | NoOk | OkCon(features: Option<seq<Feature>>)

  predicate TieneFeatures(fs: Option<seq<Feature>>) {
    fs.Some? && |fs.value| > 0
  }

  /** The position of a feature: GeoJSON orders a position longitude first,
      latitude second; a missing or zero entry gives none. */
  function PosicionDeFeature(f: Feature): (r: Option<Coordenadas>)
    ensures r.Some? ==> r.value.lat != 0.0 && r.value.lng != 0.0
  {
    var coords := if f.coordinates.Some? then f.coordinates.value else [];
    var longitude := if |coords| > 0 then Some(coords[0]) else None;
    var latitude := if |coords| > 1 then Some(coords[1]) else None;
    if TruthyNumber(latitude) && TruthyNumber(longitude) then Some(Coordenadas(latitude.value, longitude.value))
    else None
  }

  /** The position `[lng, lat]` is read as latitude `lat` and longitude `lng`. */
  lemma PosicionLongitudPrimero(lng: real, lat: real, resto: seq<real>)
    requires lng != 0.0 && lat != 0.0
    ensures PosicionDeFeature(Feature(Some([lng, lat] + resto))) == Some(Coordenadas(lat, lng))
  {
  }

  const MensajeDireccionCorta: string := "Por favor ingresa una dirección válida (mínimo 3 caracteres)"
  const MensajeSinToken: string := "Error de configuración: Token de Mapbox no encontrado"
  const MensajeNoEncontrada: string := "No se encontró la dirección. Por favor, verifica que sea correcta."
  const MensajeConexion: string := "Error de conexión. Por favor, verifica tu internet e intenta nuevamente."
  const MensajeSinCoordenadas: string := "No se pudo obtener las coordenadas de la dirección"
  const MensajeSinResiduos: string := "Debe seleccionar al menos un tipo de residuo"
  const PrefijoErrorCreacion: string := "Error al crear el punto verde: "

  /** The second search was sent and threw. */
  predicate SegundaFalla(primera: Geocodificacion, segunda: Geocodificacion) {
    primera.OkCon? && !TieneFeatures(primera.features) && segunda.Excepcion?
  }

  /** The feature list an ok first answer leads to: its own when it has
      features, else the second answer's when that one is ok, else its own. */
  function FeaturesUsadas(primera: Geocodificacion, segunda: Geocodificacion): Option<seq<Feature>> {
    if primera.OkCon? && !TieneFeatures(primera.features) && segunda.OkCon? then segunda.features
    else if primera.OkCon? then primera.features
    else None
  }

  /** A search text is sent only when it has at least three characters after
      trimming. */
  predicate ConsultaValida(addressText: string) {
    |Trim(addressText)| >= 3
  }

  /** Padding around a short text does not make it searchable. */
  lemma ConsultaIgnoraEspacios(addressText: string)
    ensures ConsultaValida(addressText) <==> ConsultaValida(Trim(addressText))
  {
    TrimIdempotent(addressText);
  }

  // ---------------------------------------------------------------------------
  // Submission

  /** `puntoVerdeData`: the form's values, the chosen position, the selection,
      and the picked image when there is one, else the form's image. */
  function PayloadDe(data: FormPV, c: Coordenadas, seleccion: seq<string>, selectedImage: Option<string>)
    : (p: PV.DatosPuntoVerde)
    ensures p.latitud == Some(c.lat) && p.longitud == Some(c.lng)
    ensures p.residuosAceptados.Some? && |p.residuosAceptados.value| == |seleccion|
    ensures PV.Presentes(p.residuosAceptados.value) == seleccion
    ensures p.nombre == Some(data.nombre) && p.descripcion == Some(data.descripcion)
    ensures p.direccion == Some(data.direccion) && p.diasHorarioAtencion == Some(data.diasHorarioAtencion)
    ensures TruthyText(selectedImage) ==> p.imagen == PV.Uri(selectedImage.value)
    ensures !TruthyText(selectedImage) && data.imagen.Some? ==> p.imagen == PV.Uri(data.imagen.value)
    ensures !TruthyText(selectedImage) && data.imagen.None? ==> p.imagen == PV.SinImagen
  {
    PresentesDeSeleccion(seleccion);
    var imagen := if TruthyText(selectedImage) then selectedImage else data.imagen;
    PV.DatosPuntoVerde(
      Some(data.nombre), Some(data.descripcion), Some(data.direccion), Some(c.lat), Some(c.lng),
      Some(data.diasHorarioAtencion),
      Some(seq(|seleccion|, i requires 0 <= i < |seleccion| => Some(seleccion[i]))),
      if imagen.Some? then PV.Uri(imagen.value) else PV.SinImagen)
  }

  lemma {:induction false} PresentesDeSeleccion(seleccion: seq<string>)
    ensures PV.Presentes(seq(|seleccion|, i requires 0 <= i < |seleccion| => Some(seleccion[i]))) == seleccion
  {
    if seleccion != [] {
      var init := seleccion[..|seleccion| - 1];
      var todos := seq(|seleccion|, i requires 0 <= i < |seleccion| => Some(seleccion[i]));
      assert todos[..|todos| - 1] == seq(|init|, i requires 0 <= i < |init| => Some(init[i]));
      PresentesDeSeleccion(init);
    }
  }

  /** The create request built from a submission carries the selected materials,
      in the order they were selected, and the chosen position. */
  lemma PedidoLlevaSeleccion(data: FormPV, c: Coordenadas, seleccion: seq<string>, selectedImage: Option<string>,
                             colaboradorId: Option<string>, ahora: nat)
    ensures var form := PV.FormularioCreacion(PayloadDe(data, c, seleccion, selectedImage), colaboradorId, ahora);
      && PV.ValoresDe(form, PV.ResiduosAceptados) == PV.Textos(seleccion)
      && PV.ValoresDe(form, PV.Latitud) == [PV.Numero(c.lat)]
      && PV.ValoresDe(form, PV.Longitud) == [PV.Numero(c.lng)]
  {
    var p := PayloadDe(data, c, seleccion, selectedImage);
    PV.ValoresDeCreacion(p, colaboradorId, ahora, PV.ResiduosAceptados);
    PV.ValoresDeCreacion(p, colaboradorId, ahora, PV.Latitud);
    PV.ValoresDeCreacion(p, colaboradorId, ahora, PV.Longitud);
    PresentesDeSeleccion(seleccion);
  }

  /** The default map centre when the device position is unknown. */
  const LatitudPorDefecto: real := -26.815939568519156
  const LongitudPorDefecto: real := -65.21566985440371

  /** The dialog's state. */
  class Modal {
    var visible: bool
    var form: FormPV
    var selectedResiduos: seq<string>
    var coordinates: Option<Coordenadas>
    var mapRegion: Option<Region>
    var selectedImage: Option<string>
    var direccionFromMap: string
    /** The message shown under the address field, if one was set. */
    var direccionError: Option<string>
    /** The last `alert` shown. */
    var alerta: Option<string>
    /** The positions sent to reverse geocoding, in order. */
    var reversos: seq<Coordenadas>
    var isLoading: bool

    /** The position was chosen as `c`: the map zooms to it and its address is
        requested. */
    twostate predicate Elige(c: Coordenadas)
      reads this
    {
      coordinates == Some(c) && mapRegion == Some(Region(c.lat, c.lng, 0.01, 0.01))
      && reversos == old(reversos) + [c]
    }

    /** The position, the map region and the address requests are as before. */
    twostate predicate PosicionIntacta()
      reads this
    {
      coordinates == old(coordinates) && mapRegion == old(mapRegion) && reversos == old(reversos)
    }

    /** What the position search leaves alone: the dialog's visibility, the
        form, the selection, the picked image, the alert and the address shown
        on the marker. */
    twostate predicate RestoIntacto()
      reads this
    {
      visible == old(visible) && form == old(form) && selectedResiduos == old(selectedResiduos)
      && selectedImage == old(selectedImage) && alerta == old(alerta) && direccionFromMap == old(direccionFromMap)
    }

    /** The outcome of using the feature list `d` of a search, the address
        message having been `error` before: the first feature's position is
        chosen when it has one; no feature is reported. */
    twostate predicate ResultadoDeFeatures(d: Option<seq<Feature>>, error: Option<string>)
      reads this
    {
      if !TieneFeatures(d) then PosicionIntacta() && direccionError == Some(MensajeNoEncontrada)
      else
        direccionError == error
        && match PosicionDeFeature(d.value[0])
           case Some(c) => Elige(c)
           case None => PosicionIntacta()
    }

    constructor ()
      ensures !visible && form == FormPorDefecto && selectedResiduos == [] && coordinates.None?
      ensures mapRegion.None? && selectedImage.None? && direccionError.None? && alerta.None? && reversos == []
    {
      visible, form, selectedResiduos, coordinates, mapRegion := false, FormPorDefecto, [], None, None;
      selectedImage, direccionFromMap, direccionError, alerta, reversos, isLoading := None, "", None, None, [], false;
    }

    /** The effect run when the dialog opens: forget the position and centre
        the map on the device, or on the default place. */
    method Abrir(ubicacion: Option<Punto>)
      modifies this
      ensures visible && coordinates.None? && direccionFromMap == ""
      ensures mapRegion.Some? && mapRegion.value.latitudeDelta == 0.05 && mapRegion.value.longitudeDelta == 0.05
      ensures mapRegion.value.latitude ==
        if ubicacion.Some? && TruthyNumber(ubicacion.value.latitude) then ubicacion.value.latitude.value else LatitudPorDefecto
      ensures mapRegion.value.longitude ==
        if ubicacion.Some? && TruthyNumber(ubicacion.value.longitude) then ubicacion.value.longitude.value else LongitudPorDefecto
      ensures selectedResiduos == old(selectedResiduos) && selectedImage == old(selectedImage) && form == old(form)
      ensures alerta == old(alerta) && direccionError == old(direccionError) && reversos == old(reversos)
      ensures isLoading == old(isLoading)
    {
      visible := true;
      direccionFromMap := "";
      coordinates := None;
      var lat := if ubicacion.Some? && TruthyNumber(ubicacion.value.latitude) then ubicacion.value.latitude.value else LatitudPorDefecto;
      var lng := if ubicacion.Some? && TruthyNumber(ubicacion.value.longitude) then ubicacion.value.longitude.value else LongitudPorDefecto;
      mapRegion := Some(Region(lat, lng, 0.05, 0.05));
    }

    method Toggle(material: string)
      modifies this
      ensures selectedResiduos == ToggleResiduo(old(selectedResiduos), material)
      ensures coordinates == old(coordinates) && selectedImage == old(selectedImage) && form == old(form)
      ensures visible == old(visible) && mapRegion == old(mapRegion) && alerta == old(alerta)
      ensures direccionError == old(direccionError) && direccionFromMap == old(direccionFromMap)
      ensures reversos == old(reversos) && isLoading == old(isLoading)
    {
      selectedResiduos := ToggleResiduo(selectedResiduos, material);
    }

    /** `handleMapPress`: a press without a usable coordinate is ignored;
        otherwise the position is chosen, the map zooms to it and its address
        is requested. */
    method HandleMapPress(e: EventoMapa)
      modifies this
      ensures PosicionDelEvento(e).None? ==> unchanged(this)
      ensures PosicionDelEvento(e).Some? ==>
        var c := PosicionDelEvento(e).value;
        && coordinates == Some(c)
        && mapRegion == Some(Region(c.lat, c.lng, 0.01, 0.01))
        && reversos == old(reversos) + [c]
        && selectedResiduos == old(selectedResiduos) && form == old(form) && direccionError == old(direccionError)
        && selectedImage == old(selectedImage)
      ensures PosicionDelEvento(e).Some? ==> Elige(PosicionDelEvento(e).value)
      ensures RestoIntacto() && direccionError == old(direccionError) && isLoading == old(isLoading)
    {
      var p := PuntoDelEvento(e);
      if p.None? {
        return;
      }
      var latitude, longitude := p.value.latitude, p.value.longitude;
      if !TruthyNumber(latitude) || !TruthyNumber(longitude) {
        return;
      }
      var c := Coordenadas(latitude.value, longitude.value);
      coordinates := Some(c);
      mapRegion := Some(Region(c.lat, c.lng, 0.01, 0.01));
      reversos := reversos + [c];
    }

    /** The last step of `geocodeAddress`: the first feature's position, when it
        has one, is chosen as on a map press; no feature is reported. */
    method UsarFeatures(data: Option<seq<Feature>>)
      modifies this
      ensures TieneFeatures(data) && PosicionDeFeature(data.value[0]).Some? ==>
        var c := PosicionDeFeature(data.value[0]).value;
        coordinates == Some(c) && mapRegion == Some(Region(c.lat, c.lng, 0.01, 0.01))
        && reversos == old(reversos) + [c] && direccionError == old(direccionError)
      ensures TieneFeatures(data) && PosicionDeFeature(data.value[0]).None? ==> unchanged(this)
      ensures !TieneFeatures(data) ==>
        direccionError == Some(MensajeNoEncontrada) && coordinates == old(coordinates) && reversos == old(reversos)
      ensures coordinates == old(coordinates) || coordinates.Some?
      ensures selectedResiduos == old(selectedResiduos) && form == old(form) && selectedImage == old(selectedImage)
      ensures isLoading == old(isLoading)
      ensures ResultadoDeFeatures(data, old(direccionError)) && RestoIntacto()
    {
      if TieneFeatures(data) {
        var pos := PosicionDeFeature(data.value[0]);
        if pos.Some? {
          coordinates := pos;
          mapRegion := Some(Region(pos.value.lat, pos.value.lng, 0.01, 0.01));
          reversos := reversos + [pos.value];
        }
      } else {
        direccionError := Some(MensajeNoEncontrada);
      }
    }

    /** The searches of `geocodeAddress` once the text and the token are
        accepted: `primera` answers the country-restricted search and `segunda`
        the global one sent when the first is ok but finds nothing. */
    method Consultar(primera: Geocodificacion, segunda: Geocodificacion) returns (consultas: nat)
      modifies this
      ensures consultas == if primera.OkCon? && !TieneFeatures(primera.features) then 2 else 1
      ensures primera.Excepcion? ==> direccionError == Some(MensajeConexion) && coordinates == old(coordinates)
      ensures primera.NoOk? ==> direccionError == old(direccionError) && coordinates == old(coordinates)
      ensures coordinates == old(coordinates) || coordinates.Some?
      ensures selectedResiduos == old(selectedResiduos) && form == old(form) && selectedImage == old(selectedImage)
      ensures primera.NoOk? ==> unchanged(this)
      ensures primera.Excepcion? || SegundaFalla(primera, segunda) ==>
        direccionError == Some(MensajeConexion) && PosicionIntacta()
      ensures primera.OkCon? && !SegundaFalla(primera, segunda) ==>
        ResultadoDeFeatures(FeaturesUsadas(primera, segunda), old(direccionError))
      ensures RestoIntacto() && isLoading == old(isLoading)
    {
      consultas := 1;
      match primera {
        case Excepcion =>
          direccionError := Some(MensajeConexion);
        case NoOk =>
        case OkCon(fs) =>
          var data := fs;
          if !TieneFeatures(data) {
            consultas := 2;
            match segunda {
              case Excepcion =>
                direccionError := Some(MensajeConexion);
                return;
              case NoOk =>
              case OkCon(fs2) =>
                data := fs2;
            }
          }
          UsarFeatures(data);
      }
    }

    /** The searches of `geocodeAddress` with the loading flag raised around
        them, once the address message has been cleared. */
    method Buscar(primera: Geocodificacion, segunda: Geocodificacion) returns (consultas: nat)
      modifies this
      ensures consultas == if primera.OkCon? && !TieneFeatures(primera.features) then 2 else 1
      ensures !isLoading
      ensures primera.NoOk? ==> direccionError == Some("") && PosicionIntacta()
      ensures primera.Excepcion? || SegundaFalla(primera, segunda) ==>
        direccionError == Some(MensajeConexion) && PosicionIntacta()
      ensures primera.OkCon? && !SegundaFalla(primera, segunda) ==>
        ResultadoDeFeatures(FeaturesUsadas(primera, segunda), Some(""))
      ensures coordinates == old(coordinates) || coordinates.Some?
      ensures RestoIntacto()
    {
      isLoading := true;
      direccionError := Some("");
      consultas := Consultar(primera, segunda);
      isLoading := false;
    }

    /** `geocodeAddress`. `token` is the configured access token; `consultas`
        counts the searches sent. */
    method GeocodeAddress(addressText: string, token: Option<string>, primera: Geocodificacion, segunda: Geocodificacion)
      returns (consultas: nat)
      modifies this
      ensures consultas <= 2
      ensures !ConsultaValida(addressText) ==>
        consultas == 0 && direccionError == Some(MensajeDireccionCorta) && coordinates == old(coordinates)
      ensures ConsultaValida(addressText) && !TruthyText(token) ==>
        consultas == 0 && direccionError == Some(MensajeSinToken) && coordinates == old(coordinates)
      ensures ConsultaValida(addressText) && TruthyText(token) ==> consultas >= 1 && !isLoading
      ensures consultas == 2 <==>
        ConsultaValida(addressText) && TruthyText(token)
        && primera.OkCon? && !TieneFeatures(primera.features)
      ensures primera.Excepcion? && consultas == 1 ==> direccionError == Some(MensajeConexion)
      ensures primera.NoOk? && consultas == 1 ==> direccionError == Some("") && coordinates == old(coordinates)
      ensures coordinates != old(coordinates) ==> consultas >= 1 && coordinates.Some?
      ensures selectedResiduos == old(selectedResiduos) && form == old(form) && selectedImage == old(selectedImage)
      ensures !(ConsultaValida(addressText) && TruthyText(token)) ==> PosicionIntacta() && isLoading == old(isLoading)
      ensures ConsultaValida(addressText) && TruthyText(token) ==>
        && (primera.NoOk? ==> direccionError == Some("") && PosicionIntacta())
        && (primera.Excepcion? || SegundaFalla(primera, segunda) ==>
              direccionError == Some(MensajeConexion) && PosicionIntacta())
        && (primera.OkCon? && !SegundaFalla(primera, segunda) ==>
              ResultadoDeFeatures(FeaturesUsadas(primera, segunda), Some("")))
      ensures RestoIntacto()
    {
      var text := Trim(addressText);
      if |text| < 3 {
        direccionError := Some(MensajeDireccionCorta);
        return 0;
      }
      if !TruthyText(token) {
        direccionError := Some(MensajeSinToken);
        return 0;
      }
      consultas := Buscar(primera, segunda);
    }

    /** The fields a submission never changes: the picked image, the map
        region, the marker address, the address requests and the loading
        flag. */
    twostate predicate EnvioIntacto()
      reads this
    {
      selectedImage == old(selectedImage) && mapRegion == old(mapRegion)
      && direccionFromMap == old(direccionFromMap) && reversos == old(reversos) && isLoading == old(isLoading)
    }

    /** `handleSubmit(onSubmit)` for a form the schema accepts: the resolver's
        empty result replaces the form errors, so the address message is
        cleared, and then `onSubmit` runs. Without a chosen position, or with
        no material selected, nothing is sent. Otherwise the payload goes to
        `crearPuntoVerde`, whose thrown error, if any, is `error`, and the
        alert shows it as `String(error)`; on success the dialog closes and
        `reset()` restores the form, and the selection and the position are
        cleared, while the picked image stays. */
    method OnSubmit(data: FormPV, error: Option<Js.Error>) returns (enviado: Option<PV.DatosPuntoVerde>)
      requires ProblemasPV(data) == []
      modifies this
      ensures old(coordinates).None? ==>
        enviado.None? && direccionError == Some(MensajeSinCoordenadas)
        && selectedResiduos == old(selectedResiduos) && visible == old(visible)
        && alerta == old(alerta) && form == old(form) && coordinates == old(coordinates)
      ensures old(coordinates).Some? && old(selectedResiduos) == [] ==>
        enviado.None? && alerta == Some(MensajeSinResiduos) && coordinates == old(coordinates)
        && visible == old(visible) && form == old(form) && selectedResiduos == old(selectedResiduos)
        && direccionError.None?
      ensures enviado.Some? <==> old(coordinates).Some? && old(selectedResiduos) != []
      ensures enviado.Some? ==>
        enviado.value == PayloadDe(data, old(coordinates).value, old(selectedResiduos), old(selectedImage))
      ensures enviado.Some? && error.None? ==>
        !visible && form == FormPorDefecto && selectedResiduos == [] && coordinates.None?
        && direccionError.None? && alerta == old(alerta)
      ensures enviado.Some? && error.Some? ==>
        alerta == Some(PrefijoErrorCreacion + ErrorToString(error.value))
        && selectedResiduos == old(selectedResiduos) && coordinates == old(coordinates)
        && visible == old(visible) && form == old(form) && direccionError.None?
      ensures selectedImage == old(selectedImage)
      ensures EnvioIntacto()
    {
      direccionError := None;
      if coordinates.None? {
        direccionError := Some(MensajeSinCoordenadas);
        return None;
      }
      if |selectedResiduos| == 0 {
        alerta := Some(MensajeSinResiduos);
        return None;
      }
      var p := Enviar(data, error);
      enviado := Some(p);
    }

    /** The `try` block of `onSubmit`, once a position and a material are
        there: the payload is sent; success closes the dialog and clears it,
        failure alerts the thrown error. */
    method Enviar(data: FormPV, error: Option<Js.Error>) returns (p: PV.DatosPuntoVerde)
      requires coordinates.Some? && selectedResiduos != []
      modifies this
      ensures p == PayloadDe(data, old(coordinates).value, old(selectedResiduos), old(selectedImage))
      ensures error.None? ==>
        !visible && form == FormPorDefecto && selectedResiduos == [] && coordinates.None? && alerta == old(alerta)
      ensures error.Some? ==>
        alerta == Some(PrefijoErrorCreacion + ErrorToString(error.value))
        && selectedResiduos == old(selectedResiduos) && coordinates == old(coordinates)
        && visible == old(visible) && form == old(form)
      ensures direccionError == old(direccionError) && selectedImage == old(selectedImage) && EnvioIntacto()
    {
      p := PayloadDe(data, coordinates.value, selectedResiduos, selectedImage);
      if error.None? {
        visible := false;
        form := FormPorDefecto;
        selectedResiduos := [];
        coordinates := None;
      } else {
        alerta := Some(PrefijoErrorCreacion + ErrorToString(error.value));
      }
    }

    /** `onRequestClose`, and the "Cancelar" button, which does the same:
        everything is cleared, the picked image included, and `reset()` drops
        the address message with the rest of the form errors. */
    method Cerrar()
      modifies this
      ensures !visible && form == FormPorDefecto && selectedResiduos == [] && coordinates.None?
      ensures mapRegion.None? && direccionFromMap == "" && selectedImage.None?
      ensures direccionError.None?
      ensures alerta == old(alerta) && reversos == old(reversos) && isLoading == old(isLoading)
    {
      visible := false;
      form := FormPorDefecto;
      direccionError := None;
      selectedResiduos := [];
      coordinates := None;
      mapRegion := None;
      direccionFromMap := "";
      selectedImage := None;
    }
  }
}
