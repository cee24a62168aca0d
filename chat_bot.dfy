/**
 * The FAQ assistant: twelve fixed questions, a search box that filters them, and a
 * conversation to which each chosen question appends itself and its answer.
 */
module ChatBot {
  import opened Seqs
  import opened JsText

  datatype Pregunta = Pregunta(id: string, pregunta: string, respuesta: string)

  datatype Tipo = Usuario | Bot

  datatype Entrada = Entrada(tipo: Tipo, texto: string, id: string)

  const PreguntasFrecuentes: seq<Pregunta> := [
    Pregunta("1", "¿Cómo publicar un servicio?", "Ingresa a la sección \"Ofrecer Servicio\", completa los campos requeridos como título, descripción y categoría, y pulsa \"Publicar\"."),
    Pregunta("2", "¿Cómo elimino un servicio?", "Ve a la pantalla \"Mis Servicios\", selecciona el servicio que deseas eliminar y pulsa el botón \"Eliminar\"."),
    Pregunta("3", "¿Dónde contacto a soporte?", "Puedes escribirnos a soporte@solucionesya.com o llamarnos al 1234-5678 de lunes a viernes de 9 a 18 h."),
    Pregunta("4", "¿Cómo edito un servicio publicado?", "En \"Mis Servicios\", pulsa sobre el servicio que quieres modificar y elige la opción \"Editar\"."),
    Pregunta("5", "¿Cómo pausar un servicio?", "Desde \"Mis Servicios\", selecciona el servicio y toca \"Pausar\". Esto ocultará el servicio temporalmente sin eliminarlo."),
    Pregunta("6", "¿Cómo veo los servicios por categoría?", "En la pantalla principal (Home), verás un listado de categorías. Al tocar una, verás los servicios disponibles en esa categoría."),
    Pregunta("7", "¿Qué significa \"Oferta pausada temporalmente\"?", "Significa que el servicio está oculto al público pero no ha sido eliminado. Puedes reactivarlo en \"Mis Servicios\"."),
    Pregunta("8", "¿Qué es el chat con IA?", "Es un chat automático para ayudarte con preguntas frecuentes. Solo tienes que seleccionar una pregunta."),
    Pregunta("9", "¿Cómo sé si me contrataron?", "Recibirás una notificación en tu perfil y también podrás ver tus contrataciones desde \"Mis Servicios\"."),
    Pregunta("10", "¿Puedo volver a publicar un servicio eliminado?", "No, los servicios eliminados no pueden recuperarse. Deberás volver a crearlo desde \"Ofrecer Servicio\"."),
    Pregunta("11", "¿Cómo cambio mi foto de perfil?", "Ve a \"Configuración\", toca tu foto actual y selecciona una nueva imagen desde tu galería."),
    Pregunta("12", "¿Por qué no puedo publicar un servicio?", "Asegúrate de haber completado todos los campos obligatorios y de tener una cuenta verificada.")
  ]

  /** The questions are twelve and their ids are distinct. */
  lemma FaqIdsDistinct()
    ensures |PreguntasFrecuentes| == 12
    ensures forall i, j | 0 <= i < j < 12 :: PreguntasFrecuentes[i].id != PreguntasFrecuentes[j].id
  {
  }

  function Matches(filtro: string): Pregunta -> bool {
    (p: Pregunta) => Includes(ToLower(p.pregunta), ToLower(filtro))
  }

  /** `preguntas.filter((p) => p.pregunta.toLowerCase().includes(filtro.toLowerCase()))`. */
  function Filtradas(preguntas: seq<Pregunta>, filtro: string): (r: seq<Pregunta>)
    ensures forall i | 0 <= i < |r| ::
      r[i] in preguntas && Includes(ToLower(r[i].pregunta), ToLower(filtro))
    ensures forall i | 0 <= i < |preguntas| && Includes(ToLower(preguntas[i].pregunta), ToLower(filtro)) ::
      preguntas[i] in r
  {
    Filter(preguntas, Matches(filtro))
  }

  /** The filter keeps the questions in their original order. */
  lemma FiltradasKeepOrder(preguntas: seq<Pregunta>, filtro: string)
    ensures IsSubsequence(Filtradas(preguntas, filtro), preguntas)
  {
    FilterIsSubsequence(preguntas, Matches(filtro));
  }

  /** An empty search box shows every question. */
  lemma EmptyFilterShowsAll(preguntas: seq<Pregunta>)
    ensures Filtradas(preguntas, "") == preguntas
  {
    assert ToLower("") == "";
    forall i | 0 <= i < |preguntas| ensures Matches("")(preguntas[i]) {
      IncludesEmpty(ToLower(preguntas[i].pregunta));
    }
    FilterKeepsAll(preguntas, Matches(""));
  }

  /** In particular, with an empty search all twelve questions are offered. */
  lemma EmptyFilterShowsTwelve()
    ensures |Filtradas(PreguntasFrecuentes, "")| == 12
  {
    EmptyFilterShowsAll(PreguntasFrecuentes);
  }

  /** The search ignores the case of ASCII letters in what is typed. */
  lemma FilterIgnoresCase(preguntas: seq<Pregunta>, filtro: string)
    ensures Filtradas(preguntas, ToLower(filtro)) == Filtradas(preguntas, filtro)
  {
    ToLowerIdempotent(filtro);
    assert Matches(ToLower(filtro)) == Matches(filtro);
  }

  /** The conversation is a run of question/answer pairs: user entries at even positions, bot at odd. */
  predicate Alternating(conversacion: seq<Entrada>) {
    |conversacion| % 2 == 0
    && forall k | 0 <= k < |conversacion| :: conversacion[k].tipo == (if k % 2 == 0 then Usuario else Bot)
  }

  class ChatBotModal {
    var conversacion: seq<Entrada>
    var filtro: string

    constructor ()
      ensures conversacion == [] && filtro == ""
    {
      conversacion, filtro := [], "";
    }

    method SetFiltro(text: string)
      modifies this`filtro
      ensures filtro == text
    {
      filtro := text;
    }

    /**
     * `enviarPregunta`: appends the question as a user entry and its answer as a bot entry,
     * with ids 'u-' and 'b-' followed by the question id and the time stamp `now`. The
     * source reads `Date.now()` once for each id; both reads are taken to return `now`, so
     * two ids that would differ when the clock ticks between the reads are not modelled.
     */
    method EnviarPregunta(p: Pregunta, now: string)
      modifies this`conversacion
      ensures conversacion == old(conversacion) + [
        Entrada(Usuario, p.pregunta, "u-" + p.id + "-" + now),
        Entrada(Bot, p.respuesta, "b-" + p.id + "-" + now)]
      ensures Alternating(old(conversacion)) ==> Alternating(conversacion)
    {
      conversacion := conversacion + [
        Entrada(Usuario, p.pregunta, "u-" + p.id + "-" + now),
        Entrada(Bot, p.respuesta, "b-" + p.id + "-" + now)];
    }
  }
}
