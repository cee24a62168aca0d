/**
 * The payment gateway screen: the whitelist of payable categories, the classification of
 * the deep links the payment provider returns to, and the request for a payment link.
 */
module PasarelaPago {
  import opened Wrappers
  import opened JsText
  import Home

  // The whitelist is assembled from short literals, so that the verifier can decide
  // membership of a given name piece by piece.
  const Originales1: seq<string> := [
    "Electricista", "Plomero", "Gasista", "Pintor", "Carpintero", "Albañil",
    "Cerrajero", "Mecánico", "Jardinero", "Niñera", "Cocinero", "Mudanzas"]
  const Originales2: seq<string> := [
    "Diseñador", "Programador", "Fotógrafo", "Veterinario", "Profesor",
    "Abogado", "Contador", "Peluquero", "Masajista", "Maquilladora", "DJ"]
  const Originales3: seq<string> := [
    "Decorador", "Coach", "Psicólogo", "Tatuador", "Editor de video",
    "Community Manager", "Traductor", "Animador", "Soldador", "Tapicero"]
  const Originales4: seq<string> := [
    "Costurera", "Chofer", "Reparación de PC", "Reparación de celulares",
    "Delivery", "Camarero", "Mozo", "Personal trainer"]
  const Adicionales1: seq<string> := [
    "Reparaciones en el hogar", "Decorador de interiores", "Servicio de limpieza",
    "Técnico de PC", "Desarrollador web", "Fletes", "Chofer privado",
    "Profesor particular", "Profesor de música", "Diseñador gráfico"]
  const Adicionales2: seq<string> := [
    "Marketing", "Asistente virtual", "Atención al cliente", "Paseador de perros",
    "Entrenador personal", "Estilista", "Chef personal", "Organizador de eventos",
    "Cuidado de niños", "Cuidado de adultos mayores"]

  /** `CATEGORIAS_VALIDAS`: the original categories followed by the additional ones. */
  const CategoriasValidas: seq<string> :=
    Originales1 + Originales2 + Originales3 + Originales4 + Adicionales1 + Adicionales2

  /** `CATEGORIAS_VALIDAS.includes(categoria)`: exact, case-sensitive membership. */
  predicate CategoriaValida(categoria: string): (ok: bool)
    ensures ok ==> categoria != ""
  {
    categoria in CategoriasValidas
  }

  /** 'Herrero' is not whitelisted. */
  lemma HerreroRefused()
    ensures !CategoriaValida("Herrero")
  {
    assert "Herrero" !in Originales1 + Originales2 + Originales3;
    assert "Herrero" !in Originales4 + Adicionales1 + Adicionales2;
  }

  /** Membership is case-sensitive: 'DJ' is whitelisted, 'dj' is not. */
  lemma WhitelistIsCaseSensitive()
    ensures CategoriaValida("DJ") && !CategoriaValida("dj")
  {
    assert "DJ" in Originales2;
    assert "dj" !in Originales1 + Originales2 + Originales3;
    assert "dj" !in Originales4 + Adicionales1 + Adicionales2;
  }

  /** The home grid offers a category the gateway refuses: 'Herrero', in the construction section. */
  lemma GridCategoryOutsideWhitelist()
    ensures exists k | 0 <= k < |Home.Sections| :: "Herrero" in Home.Sections[k].1
    ensures !CategoriaValida("Herrero")
  {
    assert Home.Sections[10].1[1] == "Herrero";
    HerreroRefused();
  }

  datatype DeepLink = Exitoso | Fallido | Pendiente | Ignorado

  /** `handleDeepLink`'s tests, in order: success, failure, pending; anything else is ignored. */
  function ClassifyDeepLink(url: string): (kind: DeepLink)
    ensures kind == Exitoso <==> Includes(url, "pago-exitoso")
    ensures kind == Fallido <==> !Includes(url, "pago-exitoso") && Includes(url, "pago-fallido")
    ensures kind == Pendiente <==>
      !Includes(url, "pago-exitoso") && !Includes(url, "pago-fallido") && Includes(url, "pago-pendiente")
  {
    if Includes(url, "pago-exitoso") then Exitoso
    else if Includes(url, "pago-fallido") then Fallido
    else if Includes(url, "pago-pendiente") then Pendiente
    else Ignorado
  }

  /** A success marker wins wherever it appears, even next to a failure marker. */
  lemma SuccessMarkerWins(before: string, middle: string, after: string)
    ensures ClassifyDeepLink(before + "pago-fallido" + middle + "pago-exitoso" + after) == Exitoso
  {
    var url := before + "pago-fallido" + middle + "pago-exitoso" + after;
    var i := |before| + |"pago-fallido"| + |middle|;
    assert url[i..i + |"pago-exitoso"|] == "pago-exitoso";
    assert OccursAt(url, "pago-exitoso", i);
  }

  datatype Alert = Alert(title: string, message: string)

  datatype Navigation = ToServiciosPorCategoria(categoria: string) | GoBack

  datatype DeepLinkEffect = DeepLinkEffect(alert: Option<Alert>, navigation: Option<Navigation>)

  /** What a deep link does on the screen opened for `categoria`. */
  function HandleDeepLink(url: string, categoria: string): (e: DeepLinkEffect)
    ensures e.navigation == Some(ToServiciosPorCategoria(categoria)) <==> ClassifyDeepLink(url) == Exitoso
    ensures e.navigation == Some(GoBack) <==> ClassifyDeepLink(url) in {Fallido, Pendiente}
    ensures e.alert.None? <==> e.navigation.None?
    ensures e.navigation.None? <==> ClassifyDeepLink(url) == Ignorado
  {
    match ClassifyDeepLink(url)
    case Exitoso =>
      DeepLinkEffect(Some(Alert("Solicitud enviada",
        "Tu solicitud fue enviada correctamente, ahora espera que el trabajador acepte.")),
        Some(ToServiciosPorCategoria(categoria)))
    case Fallido => DeepLinkEffect(Some(Alert("Pago fallido", "No se pudo completar el pago.")), Some(GoBack))
    case Pendiente => DeepLinkEffect(Some(Alert("Pago pendiente", "Tu pago está siendo procesado.")), Some(GoBack))
    case Ignorado => DeepLinkEffect(None, None)
  }

  /** The payment backend's reply: a connection failure, or a response with its fields. */
  datatype PaymentReply =
    | ConnectionFailed
    | Response(ok: bool, initPoint: Option<string>, error: Option<string>)

  class PaymentScreen {
    const categoria: string
    var urlPago: Option<string>
    var loading: bool

    constructor (categoria: string)
      ensures this.categoria == categoria && urlPago == None && !loading
    {
      this.categoria := categoria;
      urlPago, loading := None, false;
    }

    /**
     * `iniciarPago`: a category outside the whitelist is refused without a request; otherwise
     * the payment link is stored only from an ok response that carries one, and every other
     * reply shows an error. Loading is off again at the end.
     */
    method IniciarPago(reply: PaymentReply) returns (requested: bool, alert: Option<Alert>)
      modifies this`urlPago, this`loading
      ensures requested <==> CategoriaValida(categoria)
      ensures !requested ==>
        alert == Some(Alert("Categoría inválida", "La categoría seleccionada no es válida."))
        && urlPago == old(urlPago) && loading == old(loading)
      ensures requested ==> !loading
      ensures requested && reply.Response? && reply.ok && Truthy(reply.initPoint) ==>
        urlPago == reply.initPoint && alert.None?
      ensures requested && reply.Response? && !(reply.ok && Truthy(reply.initPoint)) ==>
        urlPago == old(urlPago)
        && alert == Some(Alert("Error", if Truthy(reply.error) then reply.error.value
                                        else "No se pudo generar el link de pago."))
      ensures requested && reply.ConnectionFailed? ==>
        urlPago == old(urlPago) && alert == Some(Alert("Error de conexión", "No se pudo conectar con el servidor."))
    {
      if categoria !in CategoriasValidas {
        return false, Some(Alert("Categoría inválida", "La categoría seleccionada no es válida."));
      }
      requested := true;
      loading := true;
      match reply {
        case ConnectionFailed =>
          alert := Some(Alert("Error de conexión", "No se pudo conectar con el servidor."));
        case Response(ok, initPoint, error) =>
          if ok && Truthy(initPoint) {
            urlPago := initPoint;
            alert := None;
          } else {
            alert := Some(Alert("Error", if Truthy(error) then error.value else "No se pudo generar el link de pago."));
          }
      }
      loading := false;
    }
  }
}
