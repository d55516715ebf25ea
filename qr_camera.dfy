/** The QR scanner screen a collaborator uses to confirm an exchange: two flags,
    `scanned` and `isProcessing`, guard the barcode handler so that one scan at
    a time reaches the confirmation, and the alert shown afterwards decides how
    the flags are cleared. */
module QrCamera {
  import opened Wrappers
  import opened Text
  import opened Usuarios

  /** What the screen renders, in the order the source tests it. */
  datatype Pantalla = CargandoPermisos | PedirPermiso | SoloColaboradores | Camara

  /** `permission` of the camera-permission hook: not yet known, or known with
      its `granted` flag. */
  function PantallaDe(permiso: Option<bool>, user: Option<Usuario>): (p: Pantalla)
    ensures p == Camara <==> permiso == Some(true) && EsColaborador(user)
    ensures p == SoloColaboradores <==> permiso == Some(true) && !EsColaborador(user)
    ensures p == CargandoPermisos <==> permiso.None?
  {
    if permiso.None? then CargandoPermisos
    else if !permiso.value then PedirPermiso
    else if !EsColaborador(user) then SoloColaboradores
    else Camara
  }

  /** `!data || data.trim().length === 0`: the token is rejected. */
  predicate TokenInvalido(data: string) {
    data == "" || |Trim(data)| == 0
  }

  /** Exactly the empty and the whitespace-only codes are rejected. */
  lemma TokenInvalidoSiBlanco(data: string)
    ensures TokenInvalido(data) <==> forall i :: 0 <= i < |data| ==> IsWhitespace(data[i])
  {
    TrimEmptyIffBlank(data);
  }

  const MensajeQrInvalido: string := "Código QR inválido"

  /** The alert on screen after a scan. */
  datatype Alerta = SinAlerta | Confirmado | ErrorAlConfirmar(mensaje: string)

  /** Outcome of one call of the barcode handler. */
  datatype Escaneo = Ignorado | Rechazado | Enviado(token: string)

  class QrScanner {
    var scanned: bool
    var isProcessing: bool
    var alerta: Alerta
    /** Whether `router.back()` has been called. */
    var volvio: bool
    /** The tokens passed to `confirmarIntercambio`, in order. */
    var confirmados: seq<string>
    /** Confirmations started and not yet finished. */
    var enVuelo: nat

    /** The flags move together, a confirmation in flight keeps both set with
        no alert, and an alert on screen keeps both set with none in flight. */
    ghost predicate Valid()
      reads this
    {
      && scanned == isProcessing
      && enVuelo <= 1
      && (enVuelo == 1 ==> scanned && alerta == SinAlerta)
      && (alerta != SinAlerta ==> scanned && enVuelo == 0)
    }

    /** The camera passes scans to the handler only while `scanned` is false. */
    predicate ManejadorActivo()
      reads this
    {
      !scanned
    }

    constructor ()
      ensures Valid() && !scanned && !isProcessing && alerta == SinAlerta
      ensures confirmados == [] && enVuelo == 0 && !volvio
    {
      scanned, isProcessing, alerta, volvio, confirmados, enVuelo := false, false, SinAlerta, false, [], 0;
    }

    /** `handleBarCodeScanned` up to its `await`: a scan is ignored while either
        flag is set; otherwise both are set first, a blank code is rejected with
        an error alert, and any other code starts its confirmation. */
    method HandleBarCodeScanned(data: string) returns (r: Escaneo)
      requires Valid()
      modifies this
      ensures Valid() && volvio == old(volvio)
      ensures old(scanned || isProcessing) ==> r == Ignorado && unchanged(this)
      ensures !old(scanned || isProcessing) ==> scanned && isProcessing
      ensures !old(scanned || isProcessing) && TokenInvalido(data) ==>
        r == Rechazado && alerta == ErrorAlConfirmar(MensajeQrInvalido)
        && confirmados == old(confirmados) && enVuelo == 0
      ensures !old(scanned || isProcessing) && !TokenInvalido(data) ==>
        r == Enviado(data) && alerta == SinAlerta
        && confirmados == old(confirmados) + [data] && enVuelo == 1
    {
      if scanned || isProcessing {
        return Ignorado;
      }
      scanned := true;
      isProcessing := true;
      if data == "" || |Trim(data)| == 0 {
        alerta := ErrorAlConfirmar(MensajeQrInvalido);
        return Rechazado;
      }
      confirmados := confirmados + [data];
      enVuelo := enVuelo + 1;
      r := Enviado(data);
    }

    /** The awaited confirmation settles: the success alert, or the error alert
        with the message thrown. The flags stay set. */
    method ConfirmacionTerminada(error: Option<string>)
      requires Valid() && enVuelo == 1
      modifies this
      ensures Valid() && enVuelo == 0 && scanned && isProcessing
      ensures alerta == if error.Some? then ErrorAlConfirmar(error.value) else Confirmado
      ensures confirmados == old(confirmados) && volvio == old(volvio)
    {
      enVuelo := 0;
      alerta := if error.Some? then ErrorAlConfirmar(error.value) else Confirmado;
    }

    /** "Continuar" on the success alert clears both flags and goes back. */
    method Continuar()
      requires Valid() && alerta == Confirmado
      modifies this
      ensures Valid() && !scanned && !isProcessing && alerta == SinAlerta && volvio
      ensures confirmados == old(confirmados) && enVuelo == old(enVuelo)
    {
      scanned, isProcessing := false, false;
      alerta := SinAlerta;
      volvio := true;
    }

    /** "Reintentar" on the error alert clears both flags and stays. */
    method Reintentar()
      requires Valid() && alerta.ErrorAlConfirmar?
      modifies this
      ensures Valid() && !scanned && !isProcessing && alerta == SinAlerta
      ensures confirmados == old(confirmados) && enVuelo == old(enVuelo) && volvio == old(volvio)
    {
      scanned, isProcessing := false, false;
      alerta := SinAlerta;
    }

    /** "Cancelar" on the error alert goes back and leaves both flags set. */
    method Cancelar()
      requires Valid() && alerta.ErrorAlConfirmar?
      modifies this
      ensures Valid() && scanned && isProcessing && alerta == SinAlerta && volvio
      ensures confirmados == old(confirmados) && enVuelo == old(enVuelo)
    {
      alerta := SinAlerta;
      volvio := true;
    }

    /** `resetScanner`, behind "Escanear Otro", which is disabled while
        `isProcessing` holds; the function itself clears both flags. */
    method ResetScanner()
      requires Valid() && !isProcessing
      modifies this
      ensures Valid() && !scanned && !isProcessing && ManejadorActivo()
      ensures alerta == old(alerta) && confirmados == old(confirmados)
      ensures enVuelo == old(enVuelo) && volvio == old(volvio)
    {
      scanned, isProcessing := false, false;
    }
  }

  /** Through any run from a fresh screen, at most one confirmation is in flight,
      and a second scan while it is in flight is ignored without starting
      another. */
  method DosEscaneos(a: string, b: string) returns (s: QrScanner, r1: Escaneo, r2: Escaneo)
    ensures fresh(s) && s.Valid()
    ensures !TokenInvalido(a) ==> r1 == Enviado(a) && r2 == Ignorado && s.confirmados == [a] && s.enVuelo == 1
    ensures TokenInvalido(a) ==> r1 == Rechazado && r2 == Ignorado && s.confirmados == []
  {
    s := new QrScanner();
    r1 := s.HandleBarCodeScanned(a);
    r2 := s.HandleBarCodeScanned(b);
  }
}
