# VerdeandoApp client core, modelled in Dafny

VerdeandoApp is a React Native client for a recycling programme. Users bring
materials to *puntos verdes* (green points, drop-off places run by
collaborators). A collaborator confirms each *intercambio* (exchange) by
scanning its QR code. The app also shows statistics and a newsletter.

This project models the client-side logic of that app:

- **`PuntoVerdeContext`** (`punto_verde_context.dfy`): the green-point registry.
  - Loading, creating, updating and deleting points.
  - The FormData of the create and update requests, image file part included.
  - `verificarPuntoVerde`, a retry loop that looks for a point of the current
    collaborator within a ±0.002° box around the device position.
- **`IntercambiosContext`** (`intercambios_context.dfy`):
  - the user's exchanges, with icons looked up by material name;
  - the material catalogue;
  - the request that registers an exchange;
  - the collaborator's confirmation flow;
  - the recycled-weight total.
- **`QrCamera`** (`qr_camera.dfy`): the scanner screen. Once the screen has
  re-rendered after a scan, two flags keep a further scan from starting a
  second confirmation. The alert buttons decide how the flags are cleared.
- **`Register`** (`register.dfy`):
  - the birth-date field's `DD/MM/AAAA` formatter;
  - the registration schema, as the list of problems it reports.
- **`ModalCrearPV`** (`modal_crear_pv.dfy`): the create-point dialog.
  - The material toggle and the form schema.
  - The position, taken from a map press or from forward geocoding.
  - The submission.
- **`BarGraph`** (`bar_graph.dfy`): the five monthly buckets of the statistics
  chart, and the bars drawn from them.
- **`NewsletterContext`** (`newsletter_context.dfy`): the relevance of an
  article, and the in-place sort of the article array.
- **`NormalizePhotoUrl`**, **`Evento`**, **`TagColors`**: the photo-URL
  normaliser, the event date line and the tag colour.

Shared modules:

- `Text`: JavaScript `trim`, `split(...).pop()`, ASCII lower-casing and number
  printing.
- `Seqs`: filter, first match and sums.
- `Js`: truthiness of optional fields.
- `Http`: the outcome of a `fetch` and the `errorData.message || "Error
  <status>: <text>"` message the contexts throw.
- `Usuarios`: the session user.
- `Fechas`: a parsed `Date`.
- `Wrappers`: `Option` and `Result`.

## How the model is built

Each file is modelled in the form its source takes.

**State the source updates becomes a class.** The source keeps this state in
React state:

- the registry's list and loading flag: `PuntoVerdeContext.Registro`;
- the exchange and catalogue lists: `IntercambiosContext.IntercambiosStore`;
- the scanner's flags and alert: `QrCamera.QrScanner`;
- the dialog's fields: `ModalCrearPV.Modal`.

Each operation is a method with a `modifies` clause. It states the whole new
state, error paths included.

**Loops become methods proved against a function.**

| method | function it is proved against |
|---|---|
| `VerificarPuntoVerde` | `Candidatos` |
| `CrearFormData`, `AgregarResiduos` | `FormularioCreacion` |
| `AsignarIconos` | `ConIconos` |
| `GetResiduosReciclados` | `Reciclado` |
| `ProcesarIntercambios` | `Buckets` |
| the relevance loop and the sort | `Recalculados` and `Ordenar`, over an `array` sorted in place |

The properties are then proved about those functions.

**Pure code becomes functions and lemmas.** This covers:

- the schemas, the date formatter, the URL normaliser and the icon table;
- the month arithmetic;
- the payloads.

**Calls into code outside the model are parameters.** These are the backend's
answers, the device position, the geocoder's answers, `Date.now()` and the zod
email check.

### Behaviour worth noting

- **Proximity** (`PuntoVerdeContext.PrimerCandidato`). The verifier returns
  the *first* matching point in collection order. A point whose latitude or
  longitude is exactly 0 never matches: the code tests the coordinates for
  truthiness before comparing them. When the user has no collaborator id,
  points without an owner match, since `undefined === undefined`.
- **Retries** (`PuntoVerdeContext.VerificarPuntoVerde`). The loop filters the
  list the call captured. A reload inside the loop replaces the context's
  list, not that snapshot. So an empty snapshot fails all five attempts and
  reloads on every one of them.
- **Newsletter order** (`NewsletterContext.OrdenarIgnoraRelevancia`). The
  relevance is computed and then the articles are sorted by creation date,
  newest first. The order does not depend on the relevance.
- **Views.** `views` is divided as it is; a missing value is not replaced by
  zero.
- **Event date format** (`Evento.ComponerForma`). The comment above
  `formatearFechaEuropea` announces `DD-MM-YYYY`. The code writes
  `DD/MM/YYYY`.
- **Create dialog coordinates** (`ModalCrearPV.RangoSiempreAceptado`). The
  dialog's schema checks coordinate ranges. But the form's own `coordenadas`
  are taken once, while the state is still empty, and never updated. So the
  range checks always see (0, 0). The position that is sent comes from the
  dialog's separate `coordinates` state.

## Model

| member | source | states |
|---|---|---|
| PuntoVerdeContext.Candidatos | contexts/PuntoVerdeContext.tsx:193-209 | every candidate is a point of the collection, owned by the given collaborator id, with truthy coordinates each within 0.002 of the position; every point that passes both tests is a candidate |
| PuntoVerdeContext.PrimerCandidato | contexts/PuntoVerdeContext.tsx:193-213 | a candidate exists exactly when some point passes both tests, and the first candidate is the first such point in collection order |
| PuntoVerdeContext.SinColaboradorCoincidenLosHuerfanos | contexts/PuntoVerdeContext.tsx:193-195 | without a collaborator id, a nearby point that has no owner either passes the owner filter |
| PuntoVerdeContext.VerificarPuntoVerde | contexts/PuntoVerdeContext.tsx:179-231 | 1 to 5 attempts, with one wait between consecutive ones; success exactly when the snapshot has a candidate, returning the first candidate's id on attempt 1; otherwise failure after 5 attempts with "No se pudo verificar ... después de 5 intentos: " and the last attempt's error; a reload on every attempt exactly when the snapshot is empty |
| PuntoVerdeContext.UriDeImagen | contexts/PuntoVerdeContext.tsx:87-90 | the URI used is the string itself or the asset's `uri`; there is none exactly for a missing image or an empty or missing URI |
| PuntoVerdeContext.NombreArchivo | contexts/PuntoVerdeContext.tsx:91 | the name is non-empty and has no `/`; it is either the generated `imagen_<now>.jpg` or a suffix of the URI preceded by `/`; a URI that is empty or ends in `/` always gets the generated name |
| PuntoVerdeContext.Extension | contexts/PuntoVerdeContext.tsx:92 | the extension has no `.` and is no longer than the name |
| PuntoVerdeContext.TipoMime | contexts/PuntoVerdeContext.tsx:93 | `png` gives image/png, `webp` gives image/webp, and every other extension gives image/jpeg, each in both directions |
| PuntoVerdeContext.ArchivoDeRuta | contexts/PuntoVerdeContext.tsx:90-94 | a file part is named after the URI's last path segment and typed after that name's extension |
| PuntoVerdeContext.ExtensionSinPunto | contexts/PuntoVerdeContext.tsx:92 | a name without a dot is its own extension, lower-cased |
| PuntoVerdeContext.ExtensionDe | contexts/PuntoVerdeContext.tsx:92 | the extension is the lower-cased text after the last dot |
| PuntoVerdeContext.MimePngMayusculas | contexts/PuntoVerdeContext.tsx:92-93 | a name ending in `.PNG` is sent as image/png |
| PuntoVerdeContext.ArchivoDeCarpeta | contexts/PuntoVerdeContext.tsx:91-94 | a URI ending in `/` is sent under the generated name as image/jpeg |
| PuntoVerdeContext.CrearFormData | contexts/PuntoVerdeContext.tsx:65-97 | the successive appends build exactly the create request's field list |
| PuntoVerdeContext.AgregarResiduos | contexts/PuntoVerdeContext.tsx:79-85 | the loop appends one `residuosAceptados` entry per defined element, in order |
| PuntoVerdeContext.ValoresDeCreacion | contexts/PuntoVerdeContext.tsx:65-97 | under each field name the create request carries exactly the expected values: non-empty texts, defined coordinates (zero included), a truthy collaborator id, each defined material in order, and the image file part when a URI is present |
| PuntoVerdeContext.CamposDeActualizacion | contexts/PuntoVerdeContext.tsx:126-131 | the update request carries only nombre, descripcion and diasHorarioAtencion, each exactly when it is non-empty |
| PuntoVerdeContext.Registro.constructor | contexts/PuntoVerdeContext.tsx:33-34 | the registry starts empty and not loading |
| PuntoVerdeContext.Registro.CargarPuntosVerdes | contexts/PuntoVerdeContext.tsx:43-60 | an ok response replaces the list wholesale; a failure leaves it as it was and rethrows the backend's message or "Error status: text"; loading ends false |
| PuntoVerdeContext.Registro.CrearPuntoVerde | contexts/PuntoVerdeContext.tsx:62-121 | sends the create FormData; the list is reloaded only after an ok response, and a failed post leaves it unchanged and rethrows |
| PuntoVerdeContext.Registro.ActualizarPuntoVerde | contexts/PuntoVerdeContext.tsx:123-155 | sends the update FormData; the same reload and error rules as creation |
| PuntoVerdeContext.Registro.EliminarPuntoVerde | contexts/PuntoVerdeContext.tsx:157-177 | after an ok DELETE the list is reloaded; after a failed one it is unchanged and the message is rethrown |
| Http.ErrorOf | contexts/PuntoVerdeContext.tsx:48-50 | no error exactly for an ok response; otherwise the body's truthy `message`, else `Error <status>: <statusText>`, or the transport's own message |
| IntercambiosContext.IconoDeTabla | contexts/IntercambiosContext.tsx:40-46 | the table has an entry exactly for Papel, Madera, Plástico, Vidrio and Aluminio |
| IntercambiosContext.IconoPara | contexts/IntercambiosContext.tsx:105 | a material in the table gets its entry; a missing material or one not in the table gets the paper icon |
| IntercambiosContext.IconoDistintoDePapel | contexts/IntercambiosContext.tsx:40-46 | the icon is not paper exactly for Madera, Plástico, Vidrio and Aluminio; Aluminio gets the can and Plástico the plastic icon |
| IntercambiosContext.IconoComoEscrito | contexts/IntercambiosContext.tsx:105 | the lookup on the object literal yields an inherited member exactly for the names of Object.prototype |
| IntercambiosContext.IconoComoEscritoCoincide | contexts/IntercambiosContext.tsx:105 | apart from inherited names, the literal lookup agrees with the corrected table lookup |
| IntercambiosContext.IconoDeToString | contexts/IntercambiosContext.tsx:105 | a material named "toString" gets the inherited method, not the paper icon |
| IntercambiosContext.DetalleConIconoSoloIcono | contexts/IntercambiosContext.tsx:103-107 | assigning icons changes nothing but icons, gives each object residuo its material's icon, leaves other detail lines alone, and is idempotent |
| IntercambiosContext.ConIconosConserva | contexts/IntercambiosContext.tsx:101-118 | the list is kept, in full and in order with only the icons changed, exactly when no detail line holds a non-empty bare-string residuo |
| IntercambiosContext.AsignarIconos | contexts/IntercambiosContext.tsx:101-113 | the nested loops produce exactly the iconed list, or stop at the first failing assignment |
| IntercambiosContext.Normalizados | contexts/IntercambiosContext.tsx:101-118 | a non-empty stored list can only come from an ok array body whose icon assignment succeeded; such a body keeps its length |
| IntercambiosContext.ResiduoConIcono | contexts/IntercambiosContext.tsx:132 | a catalogue residuo keeps every field and gets its material's icon |
| IntercambiosContext.Catalogo | contexts/IntercambiosContext.tsx:121-144 | an ok array body is kept element by element, each with its icon; any other outcome gives the empty catalogue |
| IntercambiosContext.ResiduoIdDe | contexts/IntercambiosContext.tsx:152 | a bare string is itself the id; an object gives its `id`; a missing residuo gives none |
| IntercambiosContext.PedidoDe | contexts/IntercambiosContext.tsx:148-155 | the payload carries the user's id and the coupon code, and one entry per detail line in order, with its residuo id and weight |
| IntercambiosContext.PedidoIgnoraIconos | contexts/IntercambiosContext.tsx:148-155 | giving the lines their icons does not change the payload |
| IntercambiosContext.RecicladoDeRealizados | contexts/IntercambiosContext.tsx:231-239 | the total is the summed weight of the REALIZADO exchanges, a missing weight counting zero |
| IntercambiosContext.RecicladoAlAgregar | contexts/IntercambiosContext.tsx:231-239 | one more exchange adds its weight if it is completed and nothing otherwise |
| IntercambiosContext.RecicladoNoNegativo | contexts/IntercambiosContext.tsx:231-239 | with no negative weights the total is not negative |
| IntercambiosContext.IntercambiosStore.constructor | contexts/IntercambiosContext.tsx:85-146 | both lists start empty |
| IntercambiosContext.IntercambiosStore.GetIntercambios | contexts/IntercambiosContext.tsx:85-119 | nothing is requested without a truthy user id or token; otherwise the list becomes the iconed array, or empty on any failure |
| IntercambiosContext.IntercambiosStore.GetResiduos | contexts/IntercambiosContext.tsx:121-144 | the catalogue becomes the iconed array, or empty; the exchanges are untouched |
| IntercambiosContext.IntercambiosStore.AddIntercambio | contexts/IntercambiosContext.tsx:146-170 | posts the payload; an ok response appends the returned exchange at the end, and any failure rethrows and leaves the list unchanged |
| IntercambiosContext.IntercambiosStore.GetResiduosReciclados | contexts/IntercambiosContext.tsx:231-239 | the loop returns the recycled total of the stored list |
| IntercambiosContext.IntercambiosStore.ConfirmarIntercambio | contexts/IntercambiosContext.tsx:172-229 | a non-collaborator is refused before any step; then, in order: location, verification, confirmation, refresh of the exchanges, refresh of the user, with the first error ending the sequence and being rethrown, so the steps taken always begin with the location request and, once a point is found, are a prefix of the full sequence; a missing point id is the "no nearby point" error; the body carries token, collaborator id and point id |
| Usuarios.ColaboradorId | contexts/PuntoVerdeContext.tsx:194 | a collaborator id comes only from a user whose collaborator record carries it |
| QrCamera.PantallaDe | components/QrCamera.tsx:99-124 | the camera is shown exactly when permission is granted and the user is a collaborator; the collaborators-only notice exactly when permission is granted to anyone else; the loading screen exactly while permission is unknown |
| QrCamera.TokenInvalidoSiBlanco | components/QrCamera.tsx:44-46 | exactly the empty and all-whitespace codes are rejected |
| QrCamera.QrScanner.constructor | components/QrCamera.tsx:10-11 | both flags start clear, with no alert and no confirmation |
| QrCamera.QrScanner.HandleBarCodeScanned | components/QrCamera.tsx:36-51 | a scan while either flag is set changes nothing; otherwise both flags are set; a blank code is rejected with "Código QR inválido"; any other code starts exactly one confirmation with that token |
| QrCamera.QrScanner.ConfirmacionTerminada | components/QrCamera.tsx:51-90 | the settled confirmation shows the success alert or the error alert with its message, and both flags stay set |
| QrCamera.QrScanner.Continuar | components/QrCamera.tsx:58-63 | "Continuar" clears both flags and goes back |
| QrCamera.QrScanner.Reintentar | components/QrCamera.tsx:78-82 | "Reintentar" clears both flags and stays |
| QrCamera.QrScanner.Cancelar | components/QrCamera.tsx:85-86 | "Cancelar" goes back and leaves the flags set |
| QrCamera.QrScanner.ResetScanner | components/QrCamera.tsx:94-97 | reachable only while `isProcessing` is clear, as the disabled button allows; the reset clears both flags and lets the camera pass scans again |
| QrCamera.DosEscaneos | components/QrCamera.tsx:36-51 | from a fresh screen, a second scan during a confirmation is ignored: at most one confirmation is ever started |
| Register.FormatearFechaNacimiento | app/register.tsx:157-169 | the handler's two conditional slash insertions give exactly the formatted text |
| Register.FormatoSoloDigitosYBarras | app/register.tsx:157-169 | the field holds only digits and slashes, at most ten characters, and its digits are the first eight typed, in order |
| Register.FormatoBarras | app/register.tsx:160-167 | a slash follows the second digit exactly when more than two digits were typed, and the fifth character is a slash exactly when more than four were |
| Register.FormatoVacio | app/register.tsx:159 | the field is emptied exactly when no digit was typed |
| Register.FormatoIdempotente | app/register.tsx:157-169 | reformatting the formatted text changes nothing |
| Register.FormatoCompleto | app/register.tsx:18-19 | eight or more digits always give a text matching `^\d{2}\/\d{2}\/\d{4}$` |
| Register.Fallos | app/register.tsx:11-27 | exactly the messages of the failing checks are reported, and nothing is reported exactly when all pass |
| Register.FallosEnOrden | app/register.tsx:11-27 | the problems follow the failing checks one for one, in the checks' order |
| Register.ProblemasDeTexto | app/register.tsx:11-27 | an undefined field gets exactly "Required"; an empty one gets its empty-field message; no other message than those and the failing checks' ones is reported |
| Register.ProblemasDeTextos | app/register.tsx:13-19 | the text fields never report on the terms; a patterned date draws no date problem; a defined password gets "Mínimo 6 caracteres" exactly when it is shorter than six |
| Register.ProblemasDeIdentidad | app/register.tsx:13-15 | name, user name and email report only on themselves |
| Register.ProblemasDeClaves | app/register.tsx:16-17 | the password checks report the minimum length exactly for a password shorter than six |
| Register.ProblemasDeFecha | app/register.tsx:18-19 | a non-empty date with the pattern draws no problem |
| Register.Refinamiento | app/register.tsx:24-27 | the refinement can report only "Las contrasenas no coinciden" on the confirmation field |
| Register.ProblemasVacio | app/register.tsx:11-27 | a form is accepted exactly when every field is defined and non-empty, the email passes, the password has at least six characters and equals its confirmation, the date has the pattern, and the terms are accepted |
| Register.ContrasenasDistintas | app/register.tsx:24-27 | once every field is defined, the mismatch is reported exactly when the passwords differ |
| Register.ContrasenaCorta | app/register.tsx:16 | a defined password draws the minimum-length message exactly when it is shorter than six |
| Register.TerminosRequeridos | app/register.tsx:20-22 | the terms message appears exactly when the terms are not accepted |
| Register.FechaConPatronAceptada | app/register.tsx:18-19 | a date with the pattern draws no date problem from the whole schema |
| Register.FechaFormateadaAceptada | app/register.tsx:18-19 | a date the field formatted from eight or more digits draws no date problem |
| ModalCrearPV.ToggleAgrega | components/ModalCrearPV.tsx:290-292 | an absent material is appended at the end and nothing else changes |
| ModalCrearPV.ToggleQuita | components/ModalCrearPV.tsx:290-292 | a present material disappears entirely, every other keeps its count, and the list shrinks |
| ModalCrearPV.ToggleQuitaUna | components/ModalCrearPV.tsx:290-291 | removing a material that occurs once leaves the other materials in their order |
| ModalCrearPV.ToggleDosVeces | components/ModalCrearPV.tsx:290-292 | toggling an absent material twice restores the list |
| ModalCrearPV.ProblemasPVVacio | components/ModalCrearPV.tsx:46-56 | the schema accepts exactly four non-empty texts, latitude in [-90, 90] and longitude in [-180, 180] |
| ModalCrearPV.RangoSiempreAceptado | components/ModalCrearPV.tsx:68-79 | with the form coordinates left at their zero defaults, only empty texts are rejected |
| ModalCrearPV.PuntoDelEvento | components/ModalCrearPV.tsx:174 | the first present of the event's three coordinate places, in order; none exactly when all three are missing |
| ModalCrearPV.PosicionDelEvento | components/ModalCrearPV.tsx:174-187 | a press selects a position exactly when its coordinate has a truthy latitude and longitude, and that position has no zero |
| ModalCrearPV.PosicionDeFeature | components/ModalCrearPV.tsx:256-262 | a feature's position, when it has one, has no zero coordinate |
| ModalCrearPV.PosicionLongitudPrimero | components/ModalCrearPV.tsx:258-260 | `[lng, lat, ...]` is read as latitude lat and longitude lng |
| ModalCrearPV.ConsultaIgnoraEspacios | components/ModalCrearPV.tsx:206-211 | surrounding blanks do not make a search text valid |
| ModalCrearPV.PayloadDe | components/ModalCrearPV.tsx:305-311 | the payload carries the form's name, description, address and opening hours, the chosen position, exactly the selected materials in order, and the picked image when truthy, else the form's image, else none |
| ModalCrearPV.PedidoLlevaSeleccion | components/ModalCrearPV.tsx:305-314 | the create request of a submission carries the selected materials in order and the chosen latitude and longitude, once each |
| ModalCrearPV.Modal.constructor | components/ModalCrearPV.tsx:68-79 | the dialog starts closed, with the default form, no selection, no position and no image |
| ModalCrearPV.Modal.Abrir | components/ModalCrearPV.tsx:112-124 | opening forgets the position and the marker address and centres the map on the device's truthy coordinates or on the default place, with deltas 0.05; the selection, form, image, messages, address requests and loading flag are kept |
| ModalCrearPV.Modal.Toggle | components/ModalCrearPV.tsx:290-292 | the selection is toggled; every other field of the dialog is kept |
| ModalCrearPV.Modal.HandleMapPress | components/ModalCrearPV.tsx:172-202 | a press without a coordinate, or with a falsy one, changes nothing; otherwise the position is chosen, the map zooms in with deltas 0.01, and that position is sent to reverse geocoding; the visibility, form, selection, image, messages, marker address and loading flag are kept |
| ModalCrearPV.Modal.UsarFeatures | components/ModalCrearPV.tsx:256-280 | the first feature's position, if any, is chosen as on a map press; a feature without one changes nothing; no feature gives "No se encontró la dirección" |
| ModalCrearPV.Modal.Consultar | components/ModalCrearPV.tsx:221-284 | the global search is sent exactly when the first one is ok with no features; a thrown first or second request gives the connection error and keeps the position; a non-ok first answer changes nothing; otherwise the feature list used is the second answer's when the first had none and the second is ok, else the first's, and the position becomes its first feature's `[lng, lat]`, or stays when that feature has none, while an empty list gives "No se encontró la dirección" |
| ModalCrearPV.Modal.Buscar | components/ModalCrearPV.tsx:219-287 | with the address message cleared and loading raised then lowered, the searches end as Consultar states, the cleared message standing when nothing else is reported |
| ModalCrearPV.Modal.GeocodeAddress | components/ModalCrearPV.tsx:205-288 | a short text or a missing token gets its message and no search; otherwise one or two searches with the error cleared first and loading cleared at the end, with the outcomes of the searches as for the searches alone; the position changes only to the first feature's position of the list used |
| ModalCrearPV.Modal.OnSubmit | components/ModalCrearPV.tsx:294-323 | the accepted form clears the address message first; nothing is sent without a position (address error) or without materials (alert), the rest of the dialog being kept; otherwise exactly the payload is sent; success closes the dialog, restores the form and clears the selection and the position but keeps the picked image; failure alerts "Error al crear el punto verde: " followed by `String(error)`, the thrown error's name and message, and keeps the dialog open with its form, selection and position; no branch touches the map region, the marker address, the address requests or the loading flag |
| ModalCrearPV.Modal.Enviar | components/ModalCrearPV.tsx:305-322 | the payload of the current position, selection and image is sent; success clears the dialog, failure alerts `String(error)` and keeps it |
| ModalCrearPV.Modal.Cerrar | components/ModalCrearPV.tsx:330-338 | closing clears the form and its address message, the selection, the position, the map region, the marker address and the picked image, and keeps the alert, the address requests and the loading flag |
| BarGraph.MesAnterior | components/estadisticas/BarGraph.tsx:27 | `new Date(y, m - i, 1)` is a valid month exactly i months back |
| BarGraph.MesAnteriorMismoAnio | components/estadisticas/BarGraph.tsx:27 | within the year, only the month steps back |
| BarGraph.MesAnteriorAnioPrevio | components/estadisticas/BarGraph.tsx:27 | stepping back past January lands in the previous year |
| BarGraph.Meses | components/estadisticas/BarGraph.tsx:26-27 | five consecutive months, oldest first, ending with the current one |
| BarGraph.DelMes | components/estadisticas/BarGraph.tsx:32-37 | a month's exchanges are exactly those with a non-empty, valid date in that year and month |
| BarGraph.Buckets | components/estadisticas/BarGraph.tsx:21-51 | five buckets |
| BarGraph.ProcesarIntercambios | components/estadisticas/BarGraph.tsx:21-51 | the loop pushes exactly the five buckets, oldest first |
| BarGraph.BucketsConsecutivos | components/estadisticas/BarGraph.tsx:26-27 | consecutive buckets are consecutive months, and the last is the current month |
| BarGraph.BucketsCruzanElAnio | components/estadisticas/BarGraph.tsx:27 | from January to April the oldest buckets are months of the previous year |
| BarGraph.EnUnSoloBucket | components/estadisticas/BarGraph.tsx:34-36 | an exchange matches at most one bucket |
| BarGraph.SinFechaNoCuenta | components/estadisticas/BarGraph.tsx:33 | an exchange without a date changes no bucket |
| BarGraph.PesoDelBucket | components/estadisticas/BarGraph.tsx:39-41 | a bucket's weight sums the weights of the month's exchanges, a missing weight counting zero |
| BarGraph.ContadosAcotados | components/estadisticas/BarGraph.tsx:32-37 | together the buckets count no more exchanges than there are |
| BarGraph.Barras | components/estadisticas/BarGraph.tsx:53-62 | one bar per bucket |
| BarGraph.BarrasDelGrafico | components/estadisticas/BarGraph.tsx:53-62 | five bars, oldest first, each as tall as its month's exchange count and coloured #90D26D, the last being the current month |
| NewsletterContext.Cociente | contexts/NewsletterContext.tsx:45 | JavaScript division: a finite quotient for a non-zero divisor; for a zero divisor, +Infinity, -Infinity or NaN by the dividend's sign |
| NewsletterContext.ConRelevancia | contexts/NewsletterContext.tsx:44-45 | the loop writes the relevance and nothing else |
| NewsletterContext.Recalculados | contexts/NewsletterContext.tsx:43-46 | every article, in place, with its relevance |
| NewsletterContext.RelevanciaPasada | contexts/NewsletterContext.tsx:44-45 | an article not in the future has a finite relevance, between 0 and its views when those are not negative |
| NewsletterContext.RelevanciaDecrece | contexts/NewsletterContext.tsx:44-45 | with equal views, an older article is never more relevant |
| NewsletterContext.RelevanciaSinDivisor | contexts/NewsletterContext.tsx:44-45 | an article dated one hour ahead divides by zero: an infinity, or NaN exactly when views are 0 |
| NewsletterContext.InsertarMultiset | contexts/NewsletterContext.tsx:47 | each sort step adds the one article and loses none |
| NewsletterContext.InsertarOrdenado | contexts/NewsletterContext.tsx:47 | each sort step keeps the list newest first |
| NewsletterContext.OrdenarOrdenado | contexts/NewsletterContext.tsx:47 | the sort orders the list by creation date, newest first |
| NewsletterContext.OrdenarPermuta | contexts/NewsletterContext.tsx:47 | the sort is a permutation |
| NewsletterContext.OrdenarIgnoraRelevancia | contexts/NewsletterContext.tsx:43-47 | sorting after the recalculation moves the articles as sorting before it would |
| NewsletterContext.OrdenarDeOrdenado | contexts/NewsletterContext.tsx:47 | a list already newest first is left as it is |
| NewsletterContext.InsertarEstable | contexts/NewsletterContext.tsx:47 | an insertion step keeps the articles of each date in their order, the inserted one last among them |
| NewsletterContext.OrdenarEstable | contexts/NewsletterContext.tsx:47 | the sort is stable: the articles of each creation date come out in the order they went in |
| NewsletterContext.Desplazar | contexts/NewsletterContext.tsx:47 | the shift moves exactly the older articles of the prefix one place right |
| NewsletterContext.InsertarEnPrefijo | contexts/NewsletterContext.tsx:47 | one in-place step inserts the next article into the sorted prefix and leaves the rest alone |
| NewsletterContext.OrdenarPorFecha | contexts/NewsletterContext.tsx:47 | the array is sorted in place into exactly the order of the sort function |
| NewsletterContext.CalcularRelevancia | contexts/NewsletterContext.tsx:41-48 | every article gets its relevance in place, then the array is sorted newest first |
| NewsletterContext.AlCambiarArticulos | contexts/NewsletterContext.tsx:29-34 | the recalculation runs exactly when the list is not empty |
| NormalizePhotoUrl.Normalizar | scripts/normalizePhotoUrl.tsx:1-8 | no URL exactly for a missing or empty photo |
| NormalizePhotoUrl.NormalizarCasos | scripts/normalizePhotoUrl.tsx:3-7 | after trimming, an absolute URL is kept, a `/`-path is appended to the base, and anything else is joined to it with a `/` |
| NormalizePhotoUrl.NormalizarBlancos | scripts/normalizePhotoUrl.tsx:2-7 | a blanks-only photo is truthy and becomes the base address followed by `/` |
| NormalizePhotoUrl.NormalizarIdempotente | scripts/normalizePhotoUrl.tsx:1-8 | with an absolute base address, normalising a result again changes nothing |
| Evento.FormatearFechaEuropea | components/Evento.tsx:7-18 | a missing or empty date gives "Fecha no disponible", an invalid one "Fecha inválida", and a valid one its day, 1-based month and year |
| Evento.DosDigitos | components/Evento.tsx:13-14 | a day or month number from 1 to 99 pads to two digits |
| Evento.ComponerForma | components/Evento.tsx:6-17 | the result is two-digit day, `/`, two-digit month, `/`, year: slashes, not the dashes of the comment |
| Evento.FormatoDiezCaracteres | components/Evento.tsx:13-17 | a valid date with a four-digit year gives ten characters matching the registration date pattern |
| TagColors.TagColor | constants/TagColors.ts:1-10 | "Noticia" gives #2C7865, "Manualidad" #007bff, and every other tag #007bff |
| TagColors.DosColores | constants/TagColors.ts:1-10 | only the exact tag "Noticia" takes the green; every other tag, case variants included, is blue |

## Left out

- Network I/O, JSON parsing and HTTP headers. Every backend, Mapbox and device-location answer is a parameter, and only its outcome is modelled. A body whose JSON fails to parse is one more failure outcome.
- Reverse geocoding. The positions sent to it are recorded in `ModalCrearPV.Modal.reversos`. Its answer, and the address it writes, are not modelled.
- Device APIs. The camera permission is a parameter, the position is a parameter, and the image picker (`pickImage`) is not part of this model.
- Timers. The 2-second wait between verification attempts is only counted, by `esperas`.
- React semantics. Effects, re-renders and closures are not simulated. Two of their results are stated directly: the list `verificarPuntoVerde` captured, and the one run of the newsletter effect. The scanner's stale closure is not modelled (next line).
- QrCamera.QrScanner.HandleBarCodeScanned and QrCamera.DosEscaneos: the handler reads `scanned` and `isProcessing` from the closure of the last render (components/QrCamera.tsx:36-37), and it is detached only when the screen re-renders (components/QrCamera.tsx:134). The model reads the flags as the previous scan left them, so its guarantee that a second scan is ignored assumes a re-render between the two scans. Two scan events delivered before a re-render both pass the guard in the source.
- The newsletter sorts the array and hands back the same reference (`setArticulos(articulos.sort(...))`). Whether React re-renders or re-runs the effect after that is not modelled.
- Floating point. Numbers are exact reals. `toFixed`, rounding and the absence of NaN in comparisons are not modelled.
- NewsletterContext.Articulo: `views` is always a number. An undefined view count, which divides to NaN, is not modelled.
- NewsletterContext.Articulo: dates are integer time values. An unparsable `fechaCreacion`, which would give NaN to the comparator, is not modelled. The sort is modelled as an insertion sort, stable as ES2019 requires of `Array.prototype.sort` (`NewsletterContext.OrdenarEstable`).
- Date parsing. `new Date(text)` arrives as a parameter, either invalid or with its local calendar fields. Time zones and the locale month names of the chart labels are not modelled.
- Register.ProblemasDeIdentidad: zod's `.email()` check is a boolean parameter `emailValido`. Its grammar is not modelled.
- Text: strings are sequences of characters. UTF-16 code units, Unicode whitespace beyond the ASCII and common Unicode blanks, and non-ASCII lower-casing are not modelled.
- The `maxLength` of the birth-date field (app/register.tsx:171) is not modelled. It is a property of the text input and cannot bind the formatter, whose output is at most ten characters anyway (`Register.FormatoSoloDigitosYBarras`).
- BarChart and DonutChart draw random data and are not part of this model. Neither are the bar press handler and the statistics modal.
- The login, recovery, user-settings and onboarding screens, and the user, reward and event contexts, are not part of this model. Only the user fields the core reads are modelled, in `Usuarios`.
- `refreshUser` after a confirmation is a parameter: the message it throws, if any.
- The `console.log` calls are not modelled.
- NewsletterContext.CalcularRelevancia: one time `ahora` is used for every article. The source calls `Date.now()` again for each article (contexts/NewsletterContext.tsx:44), so the articles' relevances may be computed at slightly different instants.
- DetalleConIconoSoloIcono (IntercambiosContext): the icon stored is the corrected lookup `IconoPara`. For a material named after an Object.prototype member the source stores the inherited member instead (see Findings).
- AsignarIconos (IntercambiosContext): it assigns the icons of the corrected lookup `IconoPara`, not the inherited member the source stores for Object.prototype names (see Findings).
- ResiduoConIcono (IntercambiosContext): it uses the corrected lookup `IconoPara`, not the inherited member the source stores for Object.prototype names (see Findings).
- Catalogo (IntercambiosContext): it uses the corrected lookup `IconoPara` (see Findings). Every catalogue element is a residuo object: an element that is `null` or a bare string, on which `residuo.icon = ...` throws and the catch stores the empty catalogue (contexts/IntercambiosContext.tsx:131-141), is not modelled.
- GetResiduos (IntercambiosContext.IntercambiosStore): it stores `Catalogo`, so the same corrected lookup and the same element restriction apply.
- GetIntercambios (IntercambiosContext.IntercambiosStore): it stores the list built by `AsignarIconos`, so the icons are those of the corrected lookup `IconoPara`. Every element of the body is an exchange object, every detail is an object and `detalleIntercambio` is missing or an array. A `null` exchange, a `null` detail or a truthy `detalleIntercambio` that is not an array makes the `forEach` throw, and the catch stores the empty list (contexts/IntercambiosContext.tsx:102-117); those bodies are not modelled.

## Findings

| source | as written | input that shows it | evidently intended | confidence | as-written member | corrected member |
|---|---|---|---|---|---|---|
| contexts/IntercambiosContext.tsx:40-46,105,132 | the icon lookup `residuosIconos[material]`, with paper as the fallback, looks the material up on a plain object literal, so names inherited from Object.prototype are found | a residuo whose material is "toString" gets the inherited function as its icon instead of the paper image | only the table's own five names get their icon; every other name gets the paper icon | not executed | IntercambiosContext.IconoDeToString | IntercambiosContext.IconoDistintoDePapel |
