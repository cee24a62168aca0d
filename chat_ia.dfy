/**
 * The chat list: each chat of the signed-in user becomes a summary naming the other
 * participant, with their photo and the last message as a preview.
 */
module ChatIA {
  import opened Wrappers
  import opened Seqs
  import opened JsText

  datatype MensajeResumen = MensajeResumen(contenido: Option<string>, creadoEn: string)

  /** A `chats` row with its embedded messages (null when the embedding is absent). */
  datatype Chat = Chat(id: string, usuario1: string, usuario2: string, servicioId: Option<string>,
                       mensajes: Option<seq<MensajeResumen>>)

  /** The `usuarios` row read for the other participant (`nombre, foto_perfil`). */
  datatype Perfil = Perfil(nombre: Option<string>, fotoPerfil: Option<string>)

  datatype Resumen = Resumen(id: string, nombre: string, avatar: string, mensaje: string,
                             servicioId: Option<string>)

  const SinMensajesText := "Entra para comenzar a chatear"
  const UsuarioDesconocido := "Usuario desconocido"
  const AvatarPlaceholder := "https://via.placeholder.com/100"

  /** `chat.usuario_1 === user.id ? chat.usuario_2 : chat.usuario_1`. */
  function OtroUsuario(chat: Chat, me: string): (otro: string)
    ensures otro == chat.usuario1 || otro == chat.usuario2
    ensures me == chat.usuario1 ==> otro == chat.usuario2
    ensures me != chat.usuario1 ==> otro == chat.usuario1
  {
    if chat.usuario1 == me then chat.usuario2 else chat.usuario1
  }

  /** For a chat between two different users that includes `me`, the other one is never `me`. */
  lemma OtroIsNotMe(chat: Chat, me: string)
    requires me == chat.usuario1 || me == chat.usuario2
    requires chat.usuario1 != chat.usuario2
    ensures OtroUsuario(chat, me) != me
    ensures {OtroUsuario(chat, me), me} == {chat.usuario1, chat.usuario2}
  {
  }

  /** `chat.mensajes?.[chat.mensajes.length - 1]?.contenido || 'Entra para comenzar a chatear'`. */
  function UltimoMensaje(chat: Chat): (preview: string)
    ensures preview != ""
    ensures chat.mensajes.Some? && chat.mensajes.value != [] && Truthy(chat.mensajes.value[|chat.mensajes.value| - 1].contenido)
      ==> preview == chat.mensajes.value[|chat.mensajes.value| - 1].contenido.value
    ensures chat.mensajes.None? || chat.mensajes.value == [] ==> preview == SinMensajesText
  {
    if chat.mensajes.Some? && chat.mensajes.value != [] then
      var last := chat.mensajes.value[|chat.mensajes.value| - 1];
      if Truthy(last.contenido) then last.contenido.value else SinMensajesText
    else SinMensajesText
  }

  /** The summary of one chat; `perfil` is the other participant's row, `None` when it could not be read. */
  function Resumir(chat: Chat, me: string, perfil: Option<Perfil>): (r: Resumen)
    ensures r.id == chat.id && r.servicioId == chat.servicioId
    ensures r.mensaje == UltimoMensaje(chat)
    ensures r.nombre == if perfil.Some? && Truthy(perfil.value.nombre) then perfil.value.nombre.value else UsuarioDesconocido
    ensures r.avatar == if perfil.Some? && Truthy(perfil.value.fotoPerfil) then perfil.value.fotoPerfil.value else AvatarPlaceholder
  {
    Resumen(
      chat.id,
      if perfil.Some? && Truthy(perfil.value.nombre) then perfil.value.nombre.value else UsuarioDesconocido,
      if perfil.Some? && Truthy(perfil.value.fotoPerfil) then perfil.value.fotoPerfil.value else AvatarPlaceholder,
      UltimoMensaje(chat),
      chat.servicioId)
  }

  function Summarizer(me: string, perfiles: string -> Option<Perfil>): Chat -> Resumen {
    (c: Chat) => Resumir(c, me, perfiles(OtroUsuario(c, me)))
  }

  /**
   * The summaries `obtenerChats` stores: one per fetched chat, in the same order, each
   * with the profile `perfiles` gives for that chat's other participant.
   */
  function Resumenes(chats: seq<Chat>, me: string, perfiles: string -> Option<Perfil>): (r: seq<Resumen>)
    ensures |r| == |chats|
    ensures forall i | 0 <= i < |chats| ::
      r[i].id == chats[i].id && r[i].servicioId == chats[i].servicioId
      && r[i] == Resumir(chats[i], me, perfiles(OtroUsuario(chats[i], me)))
  {
    var r := Map(chats, Summarizer(me, perfiles));
    forall i | 0 <= i < |chats|
      ensures r[i] == Resumir(chats[i], me, perfiles(OtroUsuario(chats[i], me)))
    {
      assert r[i] == Summarizer(me, perfiles)(chats[i]);
    }
    r
  }

  /** Every summary shows a non-empty name, avatar and preview. */
  lemma SummariesNeverBlank(chats: seq<Chat>, me: string, perfiles: string -> Option<Perfil>)
    ensures forall s | s in Resumenes(chats, me, perfiles) :: s.nombre != "" && s.avatar != "" && s.mensaje != ""
  {
    var r := Resumenes(chats, me, perfiles);
    forall s | s in r ensures s.nombre != "" && s.avatar != "" && s.mensaje != "" {
      var i :| 0 <= i < |r| && r[i] == s;
    }
  }

  /**
   * The chats query: rows of `chats` with `participant` as `usuario_1` or `usuario_2`,
   * ordered by `orderColumn`, highest first when `ascending` is false.
   */
  datatype ChatsQuery = ChatsQuery(participant: string, orderColumn: string, ascending: bool)

  /** The `.or(usuario_1.eq.id, usuario_2.eq.id)` filter. */
  predicate Matches(q: ChatsQuery, chat: Chat) {
    chat.usuario1 == q.participant || chat.usuario2 == q.participant
  }

  /** The chats query `obtenerChats` sends: only with a user, for that user, by `id` descending. */
  function ChatsQueryFor(user: Option<string>): (q: Option<ChatsQuery>)
    ensures q.Some? <==> user.Some?
    ensures q.Some? ==> q.value.participant == user.value && q.value.orderColumn == "id" && !q.value.ascending
  {
    if user.None? then None else Some(ChatsQuery(user.value, "id", false))
  }

  /**
   * Every chat the query can return for `me`, between two different users, is summarised
   * under the other participant, never under `me`.
   */
  lemma QueriedChatNamesOther(me: string, chat: Chat)
    requires Matches(ChatsQueryFor(Some(me)).value, chat)
    requires chat.usuario1 != chat.usuario2
    ensures OtroUsuario(chat, me) != me
    ensures {OtroUsuario(chat, me), me} == {chat.usuario1, chat.usuario2}
  {
    OtroIsNotMe(chat, me);
  }

  /**
   * `obtenerChats`: without a user, or when the chats query fails, nothing is stored
   * (`None`); otherwise the summaries of the fetched chats.
   */
  function ObtenerChats(user: Option<string>, chatsData: Option<seq<Chat>>,
                        perfiles: string -> Option<Perfil>): (r: Option<seq<Resumen>>)
    ensures r.Some? <==> user.Some? && chatsData.Some?
    ensures r.Some? ==> r.value == Resumenes(chatsData.value, user.value, perfiles)
  {
    if user.None? || chatsData.None? then None
    else Some(Resumenes(chatsData.value, user.value, perfiles))
  }
}
