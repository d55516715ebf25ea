/** The exchanges context: the user's exchanges and the catalogue of materials,
    each with an icon looked up by material name; the request that registers a
    new exchange; the confirmation a collaborator performs after scanning an
    exchange's QR code; and the recycled-weight total. */
module IntercambiosContext {
  import opened Wrappers
  import opened Js
  import opened Seqs
  import opened Http
  import opened Fechas
  import opened Usuarios
  import PuntoVerdeContext

  // ---------------------------------------------------------------------------
  // Data

  /** The five images of the icon table. */
  datatype Icono = IconoPapel | IconoMadera | IconoPlastico | IconoVidrio | IconoLata

  datatype Residuo = Residuo(id: Option<string>, material: Option<string>, puntos: Option<real>, icon: Option<Icono>)

  /** `detalle.residuo` as the backend sends it: missing (undefined or null), a
      bare id string, or an object. */
  datatype ResiduoRef = SinResiduo | PorId(residuoId: string) | Objeto(residuo: Residuo)

  datatype Detalle = Detalle(id: Option<string>, pesoGramos: Option<real>, puntosTotal: Option<real>, residuo: ResiduoRef)

  datatype Intercambio = Intercambio(
    id: Option<string>,
    pesoTotal: Option<real>,
    fecha: Option<FechaTexto>,
    estado: Option<string>,
    detalleIntercambio: Option<seq<Detalle>>,
    codigoCupon: Option<string>)

  /** A decoded JSON body: an array of records, or any other value. */
  datatype Cuerpo<T> = Arreglo(items: seq<T>) | OtroValor

  const EstadoRealizado: string := "REALIZADO"

  // ---------------------------------------------------------------------------
  // The icon table

  /** The table's own entries. */
  function IconoDeTabla(material: string): (r: Option<Icono>)
    ensures r.Some? <==> material in {"Papel", "Madera", "Plástico", "Vidrio", "Aluminio"}
  {
    if material == "Papel" then Some(IconoPapel)
    else if material == "Madera" then Some(IconoMadera)
    else if material == "Plástico" then Some(IconoPlastico)
    else if material == "Vidrio" then Some(IconoVidrio)
    else if material == "Aluminio" then Some(IconoLata)
    else None
  }

  /** The icon of a material: its table entry, or the paper icon for a missing
      material or one the table lacks. */
  function IconoPara(material: Option<string>): (r: Icono)
    ensures material.Some? && IconoDeTabla(material.value).Some? ==> r == IconoDeTabla(material.value).value
    ensures material.None? || IconoDeTabla(material.value).None? ==> r == IconoPapel
  {
    if material.Some? && IconoDeTabla(material.value).Some? then IconoDeTabla(material.value).value else IconoPapel
  }

  /** Only the four other table names get an icon other than paper, and each of
      them gets its own. */
  lemma IconoDistintoDePapel(material: Option<string>)
    ensures IconoPara(material) != IconoPapel <==>
      material in {Some("Madera"), Some("Plástico"), Some("Vidrio"), Some("Aluminio")}
    ensures IconoPara(Some("Aluminio")) == IconoLata && IconoPara(Some("Plástico")) == IconoPlastico
  {
  }

  /** The properties every plain object inherits from `Object.prototype`; looked
      up by name on an object literal, each yields a truthy value. */
  const Heredadas: set<string> := {
    "constructor", "__proto__", "hasOwnProperty", "isPrototypeOf", "propertyIsEnumerable",
    "toString", "toLocaleString", "valueOf",
    "__defineGetter__", "__defineSetter__", "__lookupGetter__", "__lookupSetter__"}

  /** What `residuosIconos[material] || papel` evaluates to: a table entry, or an
      inherited member of the object literal. */
  datatype ValorIcono = DeTabla(icono: Icono) | Heredado(propiedad: string)

  /** The lookup as the source writes it, on a plain object literal: a missing
      material is looked up under the key "undefined". */
  function IconoComoEscrito(material: Option<string>): (r: ValorIcono)
    ensures r.Heredado? <==> material.Some? && material.value in Heredadas
  {
    var clave := if material.Some? then material.value else "undefined";
    if IconoDeTabla(clave).Some? then DeTabla(IconoDeTabla(clave).value)
    else if clave in Heredadas then Heredado(clave)
    else DeTabla(IconoPapel)
  }

  /** The lookup as written agrees with `IconoPara` except on inherited names. */
  lemma IconoComoEscritoCoincide(material: Option<string>)
    requires material.None? || material.value !in Heredadas
    ensures IconoComoEscrito(material) == DeTabla(IconoPara(material))
  {
  }

  /** A material named "toString" gets the inherited method instead of the paper
      icon. */
  lemma IconoDeToString()
    ensures IconoComoEscrito(Some("toString")) == Heredado("toString")
    ensures IconoComoEscrito(Some("toString")) != DeTabla(IconoPapel)
  {
    assert "toString" in Heredadas;
  }

  // ---------------------------------------------------------------------------
  // Icons of the exchanges' detail lines

  /** Assigning `icon` on a truthy residuo: a non-empty bare string is a
      primitive, and assigning a property on it throws in strict-mode code. */
  predicate RompeAsignacion(d: Detalle) {
    d.residuo.PorId? && d.residuo.residuoId != ""
  }

  predicate IntercambioRompe(x: Intercambio) {
    x.detalleIntercambio.Some? &&
    exists j :: 0 <= j < |x.detalleIntercambio.value| && RompeAsignacion(x.detalleIntercambio.value[j])
  }

  /** A detail line after `if (detalle.residuo) detalle.residuo.icon = ...` when
      the assignment does not throw. */
  function DetalleConIcono(d: Detalle): Detalle {
    match d.residuo
    case Objeto(r) => d.(residuo := Objeto(r.(icon := Some(IconoPara(r.material)))))
    case _ => d
  }

  function IntercambioConIconos(x: Intercambio): Intercambio {
    match x.detalleIntercambio
    case None => x
    case Some(ds) => x.(detalleIntercambio := Some(seq(|ds|, j requires 0 <= j < |ds| => DetalleConIcono(ds[j]))))
  }

  /** The list `getIntercambios` stores from an array, or `None` when an icon
      assignment throws (the catch then stores the empty list). */
  function ConIconos(xs: seq<Intercambio>): Option<seq<Intercambio>> {
    if exists i :: 0 <= i < |xs| && IntercambioRompe(xs[i]) then None
    else Some(seq(|xs|, i requires 0 <= i < |xs| => IntercambioConIconos(xs[i])))
  }

  /** A detail line with every icon erased: what the assignment may change is
      exactly the icon of an object residuo. */
  function SinIcono(d: Detalle): Detalle {
    match d.residuo
    case Objeto(r) => d.(residuo := Objeto(r.(icon := None)))
    case _ => d
  }

  /** Assigning icons changes nothing but icons, gives every object residuo the
      icon of its material, and assigning them again changes nothing. */
  lemma DetalleConIconoSoloIcono(d: Detalle)
    ensures SinIcono(DetalleConIcono(d)) == SinIcono(d)
    ensures d.residuo.Objeto? ==>
      DetalleConIcono(d).residuo.Objeto?
      && DetalleConIcono(d).residuo.residuo.icon == Some(IconoPara(d.residuo.residuo.material))
    ensures !d.residuo.Objeto? ==> DetalleConIcono(d) == d
    ensures DetalleConIcono(DetalleConIcono(d)) == DetalleConIcono(d)
  {
  }

  /** The list is kept in full, in order, with the same records apart from the
      icons of their lines, exactly when no line holds a truthy bare string. */
  lemma ConIconosConserva(xs: seq<Intercambio>)
    ensures ConIconos(xs).Some? <==> forall i :: 0 <= i < |xs| ==> !IntercambioRompe(xs[i])
    ensures ConIconos(xs).Some? ==> var ys := ConIconos(xs).value;
      && |ys| == |xs|
      && forall i :: 0 <= i < |xs| ==>
        && ys[i].(detalleIntercambio := None) == xs[i].(detalleIntercambio := None)
        && (ys[i].detalleIntercambio.None? <==> xs[i].detalleIntercambio.None?)
        && (xs[i].detalleIntercambio.Some? ==>
              |ys[i].detalleIntercambio.value| == |xs[i].detalleIntercambio.value|
              && forall j :: 0 <= j < |xs[i].detalleIntercambio.value| ==>
                   ys[i].detalleIntercambio.value[j] == DetalleConIcono(xs[i].detalleIntercambio.value[j]))
  {
  }

  /** The two nested `forEach` loops of `getIntercambios`, stopped by the first
      assignment that throws. */
  method AsignarIconos(xs: seq<Intercambio>) returns (r: Option<seq<Intercambio>>)
    ensures r == ConIconos(xs)
  {
    var hechos: seq<Intercambio> := [];
    var i := 0;
    while i < |xs|
      invariant 0 <= i <= |xs|
      invariant forall k :: 0 <= k < i ==> !IntercambioRompe(xs[k])
      invariant |hechos| == i && forall k :: 0 <= k < i ==> hechos[k] == IntercambioConIconos(xs[k])
    {
      var x := xs[i];
      if x.detalleIntercambio.Some? {
        var ds := x.detalleIntercambio.value;
        var nuevos: seq<Detalle> := [];
        var j := 0;
        while j < |ds|
          invariant 0 <= j <= |ds|
          invariant forall k :: 0 <= k < j ==> !RompeAsignacion(ds[k])
          invariant |nuevos| == j && forall k :: 0 <= k < j ==> nuevos[k] == DetalleConIcono(ds[k])
        {
          var d := ds[j];
          match d.residuo {
            case Objeto(res) =>
              d := d.(residuo := Objeto(res.(icon := Some(IconoPara(res.material)))));
            case PorId(s) =>
              if s != "" {
                assert IntercambioRompe(xs[i]);
                return None;
              }
            case SinResiduo =>
          }
          nuevos := nuevos + [d];
          j := j + 1;
        }
        assert nuevos == IntercambioConIconos(xs[i]).detalleIntercambio.value;
        x := x.(detalleIntercambio := Some(nuevos));
      }
      hechos := hechos + [x];
      i := i + 1;
    }
    assert hechos == ConIconos(xs).value;
    r := Some(hechos);
  }

  /** The list a completed request leaves: from an array body, the exchanges with
      icons, unless an assignment throws; the empty list for any other body and
      for any failed request. */
  function Normalizados(respuesta: Response<Cuerpo<Intercambio>>): (r: seq<Intercambio>)
    ensures r != [] ==>
      respuesta.Ok? && respuesta.body.Arreglo? && ConIconos(respuesta.body.items) == Some(r)
    ensures respuesta.Ok? && respuesta.body.Arreglo? && ConIconos(respuesta.body.items).Some? ==>
      |r| == |respuesta.body.items|
  {
    match respuesta
    case Ok(Arreglo(xs)) =>
      ConIconosConserva(xs);
      if ConIconos(xs).Some? then ConIconos(xs).value else []
    case _ => []
  }

  /** A residuo of the catalogue with its icon. */
  function ResiduoConIcono(r: Residuo): (s: Residuo)
    ensures s.(icon := r.icon) == r && s.icon == Some(IconoPara(r.material))
  {
    r.(icon := Some(IconoPara(r.material)))
  }

  /** The catalogue `getResiduos` stores: every element of an array body with its
      icon, in order; the empty list otherwise. */
  function Catalogo(respuesta: Response<Cuerpo<Residuo>>): (r: seq<Residuo>)
    ensures respuesta.Ok? && respuesta.body.Arreglo? ==>
      |r| == |respuesta.body.items|
      && forall i :: 0 <= i < |r| ==> r[i] == ResiduoConIcono(respuesta.body.items[i])
    ensures !(respuesta.Ok? && respuesta.body.Arreglo?) ==> r == []
  {
    match respuesta
    case Ok(Arreglo(rs)) => seq(|rs|, i requires 0 <= i < |rs| => ResiduoConIcono(rs[i]))
    case _ => []
  }

  // ---------------------------------------------------------------------------
  // Request payloads

  datatype DetallePedido = DetallePedido(residuoId: Option<string>, pesoGramos: Option<real>)

  /** The body of the request `addIntercambio` posts. */
  datatype PedidoIntercambio = PedidoIntercambio(
    usuarioId: Option<string>, codigoCupon: Option<string>, detalles: Option<seq<DetallePedido>>)

  /** The residuo id sent for a detail line: the residuo itself when it is a
      string, the object's id otherwise. */
  function ResiduoIdDe(r: ResiduoRef): (id: Option<string>)
    ensures r.PorId? ==> id == Some(r.residuoId)
    ensures r.Objeto? ==> id == r.residuo.id
    ensures r.SinResiduo? ==> id.None?
  {
    match r
    case SinResiduo => None
    case PorId(s) => Some(s)
    case Objeto(o) => o.id
  }

  function DetallePedidoDe(d: Detalle): DetallePedido {
    DetallePedido(ResiduoIdDe(d.residuo), d.pesoGramos)
  }

  function UsuarioId(user: Option<Usuario>): Option<string> {
    if user.Some? then user.value.id else None
  }

  function UsuarioToken(user: Option<Usuario>): Option<string> {
    if user.Some? then user.value.token else None
  }

  /** `dataIntercambio`: one entry per detail line, in the same order. */
  function PedidoDe(user: Option<Usuario>, nuevo: Intercambio): (p: PedidoIntercambio)
    ensures p.usuarioId == UsuarioId(user) && p.codigoCupon == nuevo.codigoCupon
    ensures p.detalles.None? <==> nuevo.detalleIntercambio.None?
    ensures p.detalles.Some? ==>
      |p.detalles.value| == |nuevo.detalleIntercambio.value|
      && forall j :: 0 <= j < |p.detalles.value| ==>
        p.detalles.value[j].residuoId == ResiduoIdDe(nuevo.detalleIntercambio.value[j].residuo)
        && p.detalles.value[j].pesoGramos == nuevo.detalleIntercambio.value[j].pesoGramos
  {
    var detalles := match nuevo.detalleIntercambio
      case None => None
      case Some(ds) => Some(seq(|ds|, j requires 0 <= j < |ds| => DetallePedidoDe(ds[j])));
    PedidoIntercambio(UsuarioId(user), nuevo.codigoCupon, detalles)
  }

  /** Icons are display data: giving a detail list its icons does not change
      the payload built from it. */
  lemma PedidoIgnoraIconos(user: Option<Usuario>, nuevo: Intercambio)
    ensures PedidoDe(user, IntercambioConIconos(nuevo)) == PedidoDe(user, nuevo)
  {
    if nuevo.detalleIntercambio.Some? {
      var ds := nuevo.detalleIntercambio.value;
      var a := PedidoDe(user, IntercambioConIconos(nuevo)).detalles.value;
      var b := PedidoDe(user, nuevo).detalles.value;
      assert |a| == |b|;
      forall j | 0 <= j < |a| ensures a[j] == b[j] {
        assert IntercambioConIconos(nuevo).detalleIntercambio.value[j] == DetalleConIcono(ds[j]);
      }
      assert a == b;
    }
  }

  /** The body of the confirmation request. */
  datatype Confirmacion = Confirmacion(token: string, colaboradorId: Option<string>, puntoVerdeId: string)

  /** The external effects of `confirmarIntercambio`, in the order it performs them. */
  datatype Paso =
    | PedirUbicacion
    | Verificar(ubicacion: PuntoVerdeContext.Ubicacion)
    | EnviarConfirmacion(cuerpo: Confirmacion)
    | RefrescarIntercambios
    | RefrescarUsuario

  const MensajeSinColaborador: string := "El usuario no tiene ID de colaborador"

  /** Every step of a confirmation that gets to the end. */
  function PasosCompletos(loc: PuntoVerdeContext.Ubicacion, cuerpo: Confirmacion): seq<Paso> {
    [PedirUbicacion, Verificar(loc), EnviarConfirmacion(cuerpo), RefrescarIntercambios, RefrescarUsuario]
  }

  // ---------------------------------------------------------------------------
  // The recycled-weight total

  predicate EsRealizado(x: Intercambio) {
    x.estado == Some(EstadoRealizado)
  }

  function Peso(x: Intercambio): real {
    NumberOrZero(x.pesoTotal)
  }

  /** What one exchange adds to the total. */
  function Aporte(x: Intercambio): real {
    if EsRealizado(x) then Peso(x) else 0.0
  }

  /** The recycled weight of a list of exchanges. */
  function Reciclado(xs: seq<Intercambio>): real {
    SumOf(xs, Aporte)
  }

  /** The total is the summed weight of the completed exchanges, a missing
      weight counting zero. */
  lemma RecicladoDeRealizados(xs: seq<Intercambio>)
    ensures Reciclado(xs) == SumOf(Filter(xs, EsRealizado), Peso)
  {
    SumOfFilter(xs, EsRealizado, Peso, Aporte);
  }

  /** Appending an exchange adds its weight when it is completed and nothing
      otherwise. */
  lemma RecicladoAlAgregar(xs: seq<Intercambio>, x: Intercambio)
    ensures Reciclado(xs + [x]) == Reciclado(xs) + (if EsRealizado(x) then Peso(x) else 0.0)
    ensures !EsRealizado(x) ==> Reciclado(xs + [x]) == Reciclado(xs)
  {
    assert (xs + [x])[..|xs + [x]| - 1] == xs;
  }

  /** With no negative weights the total is never negative. */
  lemma RecicladoNoNegativo(xs: seq<Intercambio>)
    requires forall i :: 0 <= i < |xs| ==> xs[i].pesoTotal.None? || xs[i].pesoTotal.value >= 0.0
    ensures Reciclado(xs) >= 0.0
  {
    SumOfNonNegative(xs, Aporte);
  }

  // ---------------------------------------------------------------------------
  // The context's state

  class IntercambiosStore {
    var intercambios: seq<Intercambio>
    var residuos: seq<Residuo>

    constructor ()
      ensures intercambios == [] && residuos == []
    {
      intercambios := [];
      residuos := [];
    }

    /** `getIntercambios`: without a truthy user id or token nothing is requested
        and nothing changes; otherwise the list becomes `Normalizados`. */
    method GetIntercambios(user: Option<Usuario>, respuesta: Response<Cuerpo<Intercambio>>)
      returns (consultado: bool)
      modifies this
      ensures consultado == (TruthyText(UsuarioId(user)) || TruthyText(UsuarioToken(user)))
      ensures intercambios == if consultado then Normalizados(respuesta) else old(intercambios)
      ensures residuos == old(residuos)
    {
      if !TruthyText(UsuarioId(user)) && !TruthyText(UsuarioToken(user)) {
        return false;
      }
      consultado := true;
      match respuesta {
        case Ok(Arreglo(xs)) =>
          var r := AsignarIconos(xs);
          intercambios := if r.Some? then r.value else [];
        case _ =>
          intercambios := [];
      }
    }

    /** `getResiduos`: the catalogue with the icon of each material, or the
        empty list. */
    method GetResiduos(respuesta: Response<Cuerpo<Residuo>>)
      modifies this
      ensures residuos == Catalogo(respuesta)
      ensures intercambios == old(intercambios)
    {
      if respuesta.Ok? && respuesta.body.Arreglo? {
        var rs := respuesta.body.items;
        var hechos: seq<Residuo> := [];
        var i := 0;
        while i < |rs|
          invariant 0 <= i <= |rs|
          invariant |hechos| == i && forall k :: 0 <= k < i ==> hechos[k] == ResiduoConIcono(rs[k])
        {
          hechos := hechos + [rs[i].(icon := Some(IconoPara(rs[i].material)))];
          i := i + 1;
        }
        residuos := hechos;
      } else {
        residuos := [];
      }
    }

    /** `addIntercambio`: posts `PedidoDe`; an ok response appends the exchange
        the server returns at the end, any other outcome is rethrown and leaves
        the list as it was. */
    method AddIntercambio(user: Option<Usuario>, nuevo: Intercambio, respuesta: Response<Intercambio>)
      returns (pedido: PedidoIntercambio, error: Option<string>)
      modifies this
      ensures pedido == PedidoDe(user, nuevo) && error == ErrorOf(respuesta)
      ensures intercambios == if respuesta.Ok? then old(intercambios) + [respuesta.body] else old(intercambios)
      ensures residuos == old(residuos)
    {
      pedido := PedidoDe(user, nuevo);
      error := ErrorOf(respuesta);
      if respuesta.Ok? {
        intercambios := intercambios + [respuesta.body];
      }
    }

    /** `getResiduosReciclados`: the `forEach` that adds up the weights of the
        completed exchanges. */
    method GetResiduosReciclados() returns (total: real)
      ensures total == Reciclado(intercambios)
    {
      total := 0.0;
      var i := 0;
      while i < |intercambios|
        invariant 0 <= i <= |intercambios|
        invariant total == Reciclado(intercambios[..i])
      {
        assert intercambios[..i + 1][..i] == intercambios[..i];
        if intercambios[i].estado == Some(EstadoRealizado) {
          total := total + NumberOrZero(intercambios[i].pesoTotal);
        }
        i := i + 1;
      }
      assert intercambios[..i] == intercambios;
    }

    /** `confirmarIntercambio`. The outcomes of the external calls are
        parameters: `ubicacion` of the location request (a position or the
        message it threw), `puntos` and `recarga` what `verificarPuntoVerde`
        reads, `respuesta` of the confirmation request, `respuestaIntercambios`
        of the refresh of the list, and `refresco` the message `refreshUser`
        throws, if any. `pasos` lists the external steps taken, in order; any
        error ends the sequence and is rethrown. */
    method ConfirmarIntercambio(user: Option<Usuario>, token: string,
                                ubicacion: Result<PuntoVerdeContext.Ubicacion, string>,
                                puntos: seq<PuntoVerdeContext.PuntoVerde>, recarga: nat -> Option<string>,
                                respuesta: Response<()>, respuestaIntercambios: Response<Cuerpo<Intercambio>>,
                                refresco: Option<string>)
      returns (error: Option<string>, pasos: seq<Paso>)
      modifies this
      ensures residuos == old(residuos)
      ensures !EsColaborador(user) ==>
        pasos == [] && error == Some(MensajeSinColaborador) && intercambios == old(intercambios)
      ensures EsColaborador(user) && ubicacion.Failure? ==>
        pasos == [PedirUbicacion] && error == Some(ubicacion.error) && intercambios == old(intercambios)
      ensures EsColaborador(user) && ubicacion.Success? ==>
        var cs := PuntoVerdeContext.Candidatos(puntos, ColaboradorId(user), ubicacion.value);
        && (cs == [] ==>
              pasos == [PedirUbicacion, Verificar(ubicacion.value)]
              && error == Some(PuntoVerdeContext.MensajeFinal(
                   PuntoVerdeContext.ErrorDelIntento(puntos, recarga, PuntoVerdeContext.MaxIntentos)))
              && intercambios == old(intercambios))
        && (cs != [] && !TruthyText(cs[0].id) ==>
              pasos == [PedirUbicacion, Verificar(ubicacion.value)]
              && error == Some(PuntoVerdeContext.MensajeNoCercano) && intercambios == old(intercambios))
        && (cs != [] && TruthyText(cs[0].id) ==>
              var todos := PasosCompletos(ubicacion.value, Confirmacion(token, ColaboradorId(user), cs[0].id.value));
              && (!respuesta.Ok? ==> pasos == todos[..3] && error == ErrorOf(respuesta)
                                     && intercambios == old(intercambios))
              && (respuesta.Ok? ==> pasos == todos && error == refresco)
              && pasos <= todos && |pasos| >= 3)
      ensures EsColaborador(user) ==> |pasos| >= 1 && pasos[0] == PedirUbicacion
      ensures ubicacion.Success? && |pasos| >= 2 ==> pasos[1] == Verificar(ubicacion.value)
      ensures |pasos| > 3 ==> intercambios == (if TruthyText(UsuarioId(user)) || TruthyText(UsuarioToken(user))
                                               then Normalizados(respuestaIntercambios) else old(intercambios))
    {
      if !EsColaborador(user) {
        return Some(MensajeSinColaborador), [];
      }
      pasos := [PedirUbicacion];
      if ubicacion.Failure? {
        return Some(ubicacion.error), pasos;
      }
      var loc := ubicacion.value;
      pasos := pasos + [Verificar(loc)];
      var v, _, _, _ := PuntoVerdeContext.VerificarPuntoVerde(puntos, ColaboradorId(user), loc, recarga);
      if v.Fallido? {
        return Some(v.mensaje), pasos;
      }
      if !TruthyText(v.id) {
        return Some(PuntoVerdeContext.MensajeNoCercano), pasos;
      }
      var cuerpo := Confirmacion(token, ColaboradorId(user), v.id.value);
      pasos := pasos + [EnviarConfirmacion(cuerpo)];
      error := ErrorOf(respuesta);
      if error.Some? {
        return;
      }
      pasos := pasos + [RefrescarIntercambios];
      var _ := GetIntercambios(user, respuestaIntercambios);
      pasos := pasos + [RefrescarUsuario];
      error := refresco;
    }
  }
}
