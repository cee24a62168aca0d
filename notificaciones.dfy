/**
 * The notifications screen: the loaded list enriched with each sender's photo, and the
 * actions that mark, delete, accept and reject notifications. Every backend call is a
 * parameter saying whether it succeeded (or what rows it returned).
 */
module Notificaciones {
  import opened Wrappers
  import opened Seqs
  import opened JsText

  /** A row of `notificaciones`; an absent or empty id or sender is falsy. */
  datatype Notificacion = Notificacion(
    id: Option<string>, emisorId: Option<string>, mensaje: string,
    leido: bool, estado: Option<string>, fotoPerfil: Option<string>)

  /** A row of `usuarios` as selected for the photo join (`id, foto_perfil`). */
  datatype Usuario = Usuario(id: string, fotoPerfil: Option<string>)

  /** `[...new Set(notis.map((n) => n.emisor_id))]`. */
  function SenderIds(notis: seq<Notificacion>): (ids: seq<Option<string>>)
    ensures NoDuplicates(ids)
    ensures forall i | 0 <= i < |notis| :: notis[i].emisorId in ids
    ensures forall i | 0 <= i < |ids| :: exists j | 0 <= j < |notis| :: notis[j].emisorId == ids[i]
  {
    var senders := Map(notis, (n: Notificacion) => n.emisorId);
    var ids := Dedup(senders);
    assert forall i | 0 <= i < |notis| :: senders[i] == notis[i].emisorId;
    assert forall i | 0 <= i < |ids| :: ids[i] in senders;
    ids
  }

  /** `usuarios.find((u) => u.id === emisor_id)`: the first user with that id. */
  function FindUser(usuarios: seq<Usuario>, emisorId: Option<string>): (r: Option<Usuario>)
    ensures r.Some? ==> r.value in usuarios && emisorId == Some(r.value.id)
    ensures r.None? <==> forall u | u in usuarios :: emisorId != Some(u.id)
    ensures r.Some? ==> exists k | 0 <= k < |usuarios| ::
      (usuarios[k] == r.value && forall j | 0 <= j < k :: emisorId != Some(usuarios[j].id))
  {
    if usuarios == [] then None
    else if emisorId == Some(usuarios[0].id) then Some(usuarios[0])
    else
      var r := FindUser(usuarios[1..], emisorId);
      assert r.Some? ==> usuarios[1..] == usuarios[1..];
      if r.Some? then
        ghost var k :| 0 <= k < |usuarios[1..]| && usuarios[1..][k] == r.value
          && forall j | 0 <= j < k :: emisorId != Some(usuarios[1..][j].id);
        assert usuarios[k + 1] == r.value;
        r
      else r
  }

  /** `usuario?.foto_perfil || null`. */
  function PhotoOf(usuarios: seq<Usuario>, emisorId: Option<string>): (foto: Option<string>)
    ensures foto.Some? ==> foto.value != ""
  {
    var u := FindUser(usuarios, emisorId);
    if u.Some? && Truthy(u.value.fotoPerfil) then u.value.fotoPerfil else None
  }

  function AddPhoto(usuarios: seq<Usuario>): Notificacion -> Notificacion {
    (n: Notificacion) => n.(fotoPerfil := PhotoOf(usuarios, n.emisorId))
  }

  /** The photo join: one entry per notification, in order, carrying its sender's photo. */
  function WithPhotos(notis: seq<Notificacion>, usuarios: seq<Usuario>): (r: seq<Notificacion>)
    ensures |r| == |notis|
    ensures forall i | 0 <= i < |notis| ::
      r[i].(fotoPerfil := notis[i].fotoPerfil) == notis[i]
    ensures forall i | 0 <= i < |notis| ::
      r[i].fotoPerfil == PhotoOf(usuarios, notis[i].emisorId)
  {
    Map(notis, AddPhoto(usuarios))
  }

  /** A sender that matches no user, or a user without a photo, leaves the photo null. */
  lemma PhotoOfUnknownSender(usuarios: seq<Usuario>, emisorId: Option<string>)
    requires forall u | u in usuarios :: emisorId != Some(u.id)
    ensures PhotoOf(usuarios, emisorId) == None
  {
  }

  /** The photo is that of the first user whose id equals the sender. */
  lemma PhotoOfMatchingUser(usuarios: seq<Usuario>, k: int, emisorId: Option<string>)
    requires 0 <= k < |usuarios| && emisorId == Some(usuarios[k].id)
    requires forall j | 0 <= j < k :: emisorId != Some(usuarios[j].id)
    requires Truthy(usuarios[k].fotoPerfil)
    ensures PhotoOf(usuarios, emisorId) == usuarios[k].fotoPerfil
  {
    var u := FindUser(usuarios, emisorId);
    var m :| 0 <= m < |usuarios| && usuarios[m] == u.value
      && forall j | 0 <= j < m :: emisorId != Some(usuarios[j].id);
    assert m == k;
  }

  function MarkIfId(id: Option<string>): Notificacion -> Notificacion {
    (n: Notificacion) => if n.id == id then n.(leido := true) else n
  }

  /** `prev.map((item) => item.id === id ? { ...item, leido: true } : item)`. */
  function MarkedRead(notis: seq<Notificacion>, id: Option<string>): (r: seq<Notificacion>)
    ensures |r| == |notis|
    ensures forall i | 0 <= i < |notis| && notis[i].id == id :: r[i].leido
    ensures forall i | 0 <= i < |notis| :: r[i].(leido := notis[i].leido) == notis[i]
    ensures forall i | 0 <= i < |notis| && notis[i].id != id :: r[i] == notis[i]
  {
    Map(notis, MarkIfId(id))
  }

  /** Marking the same id twice is the same as marking it once. */
  lemma MarkedReadIdempotent(notis: seq<Notificacion>, id: Option<string>)
    ensures MarkedRead(MarkedRead(notis, id), id) == MarkedRead(notis, id)
  {
  }

  /** Marking never turns a read notification back into an unread one. */
  lemma MarkedReadMonotone(notis: seq<Notificacion>, id: Option<string>)
    ensures forall i | 0 <= i < |notis| && notis[i].leido :: MarkedRead(notis, id)[i].leido
  {
  }

  function HasOtherId(id: Option<string>): Notificacion -> bool {
    (n: Notificacion) => n.id != id
  }

  /** `prev.filter((item) => item.id !== id)`. */
  function Without(notis: seq<Notificacion>, id: Option<string>): (r: seq<Notificacion>)
    ensures forall i | 0 <= i < |r| :: r[i].id != id && r[i] in notis
    ensures forall i | 0 <= i < |notis| && notis[i].id != id :: notis[i] in r
  {
    Filter(notis, HasOtherId(id))
  }

  /** Deletion keeps the remaining notifications in their original relative order. */
  lemma WithoutKeepsOrder(notis: seq<Notificacion>, id: Option<string>)
    ensures IsSubsequence(Without(notis, id), notis)
    ensures |Without(notis, id)| <= |notis|
  {
    FilterIsSubsequence(notis, HasOtherId(id));
  }

  /** Deleting an id that no notification carries changes nothing. */
  lemma WithoutAbsentId(notis: seq<Notificacion>, id: Option<string>)
    requires forall i | 0 <= i < |notis| :: notis[i].id != id
    ensures Without(notis, id) == notis
  {
    FilterKeepsAll(notis, HasOtherId(id));
  }

  /** Deleting twice is the same as deleting once. */
  lemma WithoutIdempotent(notis: seq<Notificacion>, id: Option<string>)
    ensures Without(Without(notis, id), id) == Without(notis, id)
  {
    WithoutAbsentId(Without(notis, id), id);
  }

  /** The status shown under each notification: `item.estado || 'pendiente'`. */
  function EstadoLabel(n: Notificacion): (shown: string)
    ensures shown != ""
    ensures (Truthy(n.estado) && shown == n.estado.value) || (!Truthy(n.estado) && shown == "pendiente")
  {
    if Truthy(n.estado) then n.estado.value else "pendiente"
  }

  /** Result of looking up an existing chat between the two users. */
  datatype ChatLookup = LookupFailed | Found(chatId: string) | NotFound

  /** Result of inserting a new chat: its id, or the error message if any. */
  datatype ChatCreation = Created(chatId: string) | CreateFailed(message: Option<string>)

  datatype Alert = Alert(title: string, message: string)

  /** The writes the screen sends to the backend. */
  datatype Write =
    | SetEstado(id: string, estado: string)
    | SetLeido(id: string)
    | InsertChat(usuario1: string, usuario2: string, contratanteId: string, contratadoId: string)
    | InsertMessage(chatId: string, emisorId: string, contenido: Notice)
    | Delete(id: string)

  /** Where the screen navigates after accepting: the chat and the other user. */
  datatype ChatTarget = ChatTarget(chatId: string, otroUsuarioId: string)

  datatype AcceptOutcome = AcceptOutcome(alerts: seq<Alert>, writes: seq<Write>, navigate: Option<ChatTarget>)

  /** The two fixed messages the accepting user posts into the chat. */
  datatype Notice = ImportantNotice | ReceiptNotice
  {
    /** The message text posted. */
    function Text(): string {
      match this
      case ImportantNotice =>
        "📢 **IMPORTANTE** 📢\n\nEste chat ha sido creado exclusivamente para que puedas coordinar y acordar los detalles del servicio con el trabajador.\n\n⚠️ **Soluciones Ya no se hace responsable** por la calidad del servicio ofrecido ni por cualquier eventualidad durante su ejecución.\n\n⭐ **Al finalizar el servicio, desde este chat podrás dejar tu calificación y opinión sobre el trabajador para ayudar a otros usuarios.**\n\n────────────────────────────"
      case ReceiptNotice =>
        "🎫 Se ha concretado una propuesta de trabajo. Este chat funcionará como comprobante. Puedes coordinar los detalles del servicio aquí."
    }
  }

  /** Every id the writes touch or the chat they create is for. */
  predicate WritesOnlyFor(writes: seq<Write>, notiId: string, userId: string, emisorId: string) {
    forall k | 0 <= k < |writes| ::
      match writes[k]
      case SetEstado(id, _) => id == notiId
      case SetLeido(id) => id == notiId
      case InsertChat(u1, u2, _, _) => {u1, u2} == {userId, emisorId}
      case InsertMessage(_, from, _) => from == userId
      case Delete(id) => id == notiId
  }

  /**
   * The chat created when a request is accepted: the accepting user and the sender take
   * part, the sender as the one who hires and the accepting user as the one hired.
   */
  function NewChat(userId: string, emisorId: string): (w: Write)
    ensures w.InsertChat? && w.usuario1 == userId && w.usuario2 == emisorId
    ensures w.contratanteId == emisorId && w.contratadoId == userId
  {
    InsertChat(userId, emisorId, emisorId, userId)
  }

  const NoUserAlert := Alert("Error", "No se pudo identificar al usuario.")
  const MissingDataAlert := Alert("Error", "Faltan datos de la notificación.")
  const ConfirmedAlert := Alert("✅ Servicio confirmado", "Has aceptado la solicitud.")
  const LookupFailedAlert := Alert("Error", "No se pudo verificar chats existentes.")
  const ChatExistsAlert := Alert("Ya existe un chat", "Ya tienes un chat con esta persona.")

  /**
   * What accepting a complete notification does once the user is known: the status and
   * read writes, the confirmation, then the chat lookup. An existing chat gets the notice
   * and is opened; otherwise a chat is created with the sender hiring the user, and gets
   * the notice and the receipt. A failed lookup or creation adds an error and opens nothing.
   */
  function AcceptFlow(me: string, other: string, notiId: string, lookup: ChatLookup, creation: ChatCreation)
    : (r: AcceptOutcome)
    ensures |r.writes| >= 2 && r.writes[..2] == [SetEstado(notiId, "aceptado"), SetLeido(notiId)]
    ensures |r.alerts| >= 1 && r.alerts[0] == ConfirmedAlert
    ensures WritesOnlyFor(r.writes, notiId, me, other)
    ensures r.navigate.Some? <==> lookup.Found? || (lookup.NotFound? && creation.Created?)
    ensures r.navigate.Some? ==> r.navigate.value.otroUsuarioId == other
    ensures lookup.Found? ==>
      r.navigate == Some(ChatTarget(lookup.chatId, other))
      && |r.writes| == 3 && r.writes[2..] == [InsertMessage(lookup.chatId, me, ImportantNotice)]
    ensures lookup.NotFound? ==> |r.writes| >= 3 && r.writes[2] == NewChat(me, other)
    ensures lookup.NotFound? && creation.Created? ==>
      r.navigate == Some(ChatTarget(creation.chatId, other))
      && |r.writes| == 5 && r.writes[3..] == [InsertMessage(creation.chatId, me, ImportantNotice),
                           InsertMessage(creation.chatId, me, ReceiptNotice)]
    ensures r.navigate.None? ==> |r.alerts| == 2
  {
    var writes := [SetEstado(notiId, "aceptado"), SetLeido(notiId)];
    match lookup
    case LookupFailed =>
      AcceptOutcome([ConfirmedAlert, LookupFailedAlert], writes, None)
    case Found(chatId) =>
      AcceptOutcome([ConfirmedAlert, ChatExistsAlert],
                    writes + [InsertMessage(chatId, me, ImportantNotice)],
                    Some(ChatTarget(chatId, other)))
    case NotFound =>
      var created := writes + [NewChat(me, other)];
      match creation
      case CreateFailed(message) =>
        var text := if Truthy(message) then message.value else "Error desconocido";
        AcceptOutcome([ConfirmedAlert, Alert("Error al crear el chat", text)], created, None)
      case Created(chatId) =>
        AcceptOutcome([ConfirmedAlert], created + [InsertMessage(chatId, me, ImportantNotice),
                                                  InsertMessage(chatId, me, ReceiptNotice)],
                      Some(ChatTarget(chatId, other)))
  }

  /**
   * The notifications query: rows of `notificaciones` whose `receptor_id` is `receptorId`,
   * ordered by `created_at`, newest first when `ascending` is false.
   */
  datatype NotificationsQuery = NotificationsQuery(receptorId: string, orderColumn: string, ascending: bool)

  class NotificationsScreen {
    var notificaciones: seq<Notificacion>
    var loading: bool

    constructor ()
      ensures notificaciones == [] && loading
    {
      notificaciones, loading := [], true;
    }

    /**
     * `cargarNotificaciones`: without a user, or when a query fails, the list is left as it
     * was; otherwise it becomes the fetched notifications joined with their senders' photos.
     * The queries sent are returned: the notifications of the signed-in user, newest first,
     * and then the users whose ids are `SenderIds(fetched)`. Loading is off at the end.
     */
    method CargarNotificaciones(userId: Option<string>, fetched: Option<seq<Notificacion>>,
                                usuarios: Option<seq<Usuario>>)
      returns (notisQuery: Option<NotificationsQuery>, usersQuery: Option<seq<Option<string>>>)
      modifies this
      ensures !loading
      ensures notisQuery.Some? <==> Truthy(userId)
      ensures notisQuery.Some? ==>
        notisQuery.value.receptorId == userId.value
        && notisQuery.value.orderColumn == "created_at" && !notisQuery.value.ascending
      ensures usersQuery.Some? <==> Truthy(userId) && fetched.Some?
      ensures usersQuery.Some? ==> usersQuery.value == SenderIds(fetched.value)
      ensures Truthy(userId) && fetched.Some? && usuarios.Some? ==>
        notificaciones == WithPhotos(fetched.value, usuarios.value)
      ensures !(Truthy(userId) && fetched.Some? && usuarios.Some?) ==>
        notificaciones == old(notificaciones)
    {
      loading := true;
      notisQuery, usersQuery := None, None;
      if !Truthy(userId) {
        loading := false;
        return;
      }
      notisQuery := Some(NotificationsQuery(userId.value, "created_at", false));
      if fetched.None? {
        loading := false;
        return;
      }
      usersQuery := Some(SenderIds(fetched.value));
      if usuarios.None? {
        loading := false;
        return;
      }
      notificaciones := WithPhotos(fetched.value, usuarios.value);
      loading := false;
    }

    /** `marcarComoLeida`: on success the matching items become read; on failure nothing changes. */
    method MarcarComoLeida(id: Option<string>, updateOk: bool)
      modifies this`notificaciones
      ensures updateOk ==> notificaciones == MarkedRead(old(notificaciones), id)
      ensures !updateOk ==> notificaciones == old(notificaciones)
    {
      if updateOk {
        notificaciones := MarkedRead(notificaciones, id);
      }
    }

    /** `eliminarNotificacion`: on success every item with that id goes; on failure nothing changes. */
    method EliminarNotificacion(id: Option<string>, deleteOk: bool)
      modifies this`notificaciones
      ensures deleteOk ==> notificaciones == Without(old(notificaciones), id)
      ensures !deleteOk ==> notificaciones == old(notificaciones)
    {
      if deleteOk {
        notificaciones := Without(notificaciones, id);
      }
    }

    /** `eliminarTodasNotificaciones`: on success the list is empty; on failure unchanged. */
    method EliminarTodasNotificaciones(deleteOk: bool)
      modifies this`notificaciones
      ensures deleteOk ==> notificaciones == []
      ensures !deleteOk ==> notificaciones == old(notificaciones)
    {
      if deleteOk {
        notificaciones := [];
      }
    }

    /**
     * `aceptarNotificacion`: without a user, or with a notification lacking its sender or
     * id, only an error alert is shown and nothing is written. Otherwise the status becomes
     * 'aceptado', the notification is marked read, and the existing chat (which gets the
     * notice) or a newly created one (which gets the notice and the receipt) is opened.
     */
    method AceptarNotificacion(userId: Option<string>, n: Notificacion, markOk: bool,
                               lookup: ChatLookup, creation: ChatCreation)
      returns (r: AcceptOutcome)
      modifies this`notificaciones
      ensures !Truthy(userId) ==>
        r == AcceptOutcome([NoUserAlert], [], None) && notificaciones == old(notificaciones)
      ensures Truthy(userId) && !(Truthy(n.emisorId) && Truthy(n.id)) ==>
        r == AcceptOutcome([MissingDataAlert], [], None) && notificaciones == old(notificaciones)
      ensures Truthy(userId) && Truthy(n.emisorId) && Truthy(n.id) ==>
        r == AcceptFlow(userId.value, n.emisorId.value, n.id.value, lookup, creation)
        && (markOk ==> notificaciones == MarkedRead(old(notificaciones), n.id))
        && (!markOk ==> notificaciones == old(notificaciones))
    {
      if !Truthy(userId) {
        return AcceptOutcome([NoUserAlert], [], None);
      }
      if !Truthy(n.emisorId) || !Truthy(n.id) {
        return AcceptOutcome([MissingDataAlert], [], None);
      }
      MarcarComoLeida(n.id, markOk);
      r := AcceptFlow(userId.value, n.emisorId.value, n.id.value, lookup, creation);
    }

    /**
     * `rechazarNotificacion`: the item leaves the list only when both the status update and
     * the delete succeed; a failed status update shows an error and changes nothing.
     */
    method RechazarNotificacion(id: Option<string>, updateOk: bool, deleteOk: bool) returns (alert: Alert)
      modifies this`notificaciones
      ensures updateOk && deleteOk ==> notificaciones == Without(old(notificaciones), id)
      ensures !(updateOk && deleteOk) ==> notificaciones == old(notificaciones)
      ensures alert == if updateOk then Alert("❌ Solicitud rechazada", "Has rechazado la solicitud.")
                       else Alert("Error", "No se pudo rechazar la solicitud.")
    {
      if updateOk {
        EliminarNotificacion(id, deleteOk);
        alert := Alert("❌ Solicitud rechazada", "Has rechazado la solicitud.");
      } else {
        alert := Alert("Error", "No se pudo rechazar la solicitud.");
      }
    }
  }

}
