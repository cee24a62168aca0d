/**
 * One chat conversation: loading the messages and choosing which to mark read, sending a
 * message, telling own messages from the other user's, and the five-star rating row.
 */
module ChatIndividual {
  import opened Wrappers
  import opened Seqs
  import opened JsText

  /** A row of `mensajes`; the sender is null when it was never set. */
  datatype Mensaje = Mensaje(id: string, remitenteId: Option<string>, contenido: string, leidoPorReceptor: bool)

  /** The row `enviarMensaje` inserts. */
  datatype NuevoMensaje = NuevoMensaje(chatId: string, remitenteId: Option<string>, contenido: string, leidoPorEmisor: bool)

  /** One icon of the rating row: its key 1..5 and whether it is drawn filled. */
  datatype Star = Star(key: int, filled: bool)

  /** `item.remitente_id === usuarioId`. */
  predicate EsMio(m: Mensaje, usuarioId: Option<string>) {
    m.remitenteId == usuarioId
  }

  function IsUnreadFor(usuarioId: Option<string>): Mensaje -> bool {
    (m: Mensaje) => m.remitenteId != usuarioId && !m.leidoPorReceptor
  }

  /** `data.filter((msg) => msg.remitente_id !== usuarioId && !msg.leido_por_receptor)`. */
  function Unread(data: seq<Mensaje>, usuarioId: Option<string>): (r: seq<Mensaje>)
    ensures forall i | 0 <= i < |r| :: r[i] in data && !EsMio(r[i], usuarioId) && !r[i].leidoPorReceptor
    ensures forall i | 0 <= i < |data| && !EsMio(data[i], usuarioId) && !data[i].leidoPorReceptor :: data[i] in r
  {
    Filter(data, IsUnreadFor(usuarioId))
  }

  /** The unread messages keep the order in which they were loaded. */
  lemma UnreadKeepsOrder(data: seq<Mensaje>, usuarioId: Option<string>)
    ensures IsSubsequence(Unread(data, usuarioId), data)
  {
    FilterIsSubsequence(data, IsUnreadFor(usuarioId));
  }

  /**
   * The polling callback and the first load run with the user id captured before it was
   * set, that is null: then every unread message counts, the user's own included.
   */
  lemma StaleUserSelectsOwnMessages(data: seq<Mensaje>, k: int)
    requires 0 <= k < |data| && data[k].remitenteId.Some? && !data[k].leidoPorReceptor
    ensures data[k] in Unread(data, None)
  {
  }

  function IdOf(m: Mensaje): string { m.id }

  class ChatScreen {
    const chatId: string
    var mensajes: seq<Mensaje>
    var nuevoMensaje: string
    var usuarioId: Option<string>
    var estrellas: int
    var modalVisible: bool

    constructor (chatId: string)
      ensures this.chatId == chatId && mensajes == [] && nuevoMensaje == ""
      ensures usuarioId == None && estrellas == 0 && !modalVisible
    {
      this.chatId := chatId;
      mensajes, nuevoMensaje, usuarioId := [], "", None;
      estrellas, modalVisible := 0, false;
    }

    /**
     * `cargarMensajes`, run with the user id its closure sees: on a failed query nothing
     * changes and nothing is marked; otherwise the messages are replaced and, when some are
     * unread, exactly their ids are marked read.
     */
    method CargarMensajes(closureUserId: Option<string>, data: Option<seq<Mensaje>>)
      returns (markRead: Option<seq<string>>)
      modifies this`mensajes
      ensures data.None? ==> mensajes == old(mensajes) && markRead.None?
      ensures data.Some? ==> mensajes == data.value
      ensures data.Some? ==>
        (markRead.Some? <==> Unread(data.value, closureUserId) != [])
      ensures markRead.Some? ==> markRead.value == Map(Unread(data.value, closureUserId), IdOf)
    {
      if data.None? {
        return None;
      }
      mensajes := data.value;
      var pendientes := Unread(data.value, closureUserId);
      if |pendientes| > 0 {
        markRead := Some(Map(pendientes, IdOf));
      } else {
        markRead := None;
      }
    }

    /**
     * `obtenerUsuarioYMensajes`: a signed-in user's id is stored; without one nothing
     * changes. The first load that follows still runs with the id its closure captured.
     */
    method ObtenerUsuario(user: Option<string>)
      modifies this`usuarioId
      ensures user.Some? ==> usuarioId == user
      ensures user.None? ==> usuarioId == old(usuarioId)
    {
      if user.Some? {
        usuarioId := user;
      }
    }

    method SetNuevoMensaje(text: string)
      modifies this`nuevoMensaje
      ensures nuevoMensaje == text
    {
      nuevoMensaje := text;
    }

    /**
     * `enviarMensaje`: blank text sends nothing; otherwise the trimmed text is inserted as
     * read by its sender, and the input is cleared only when the insert succeeds (the
     * reload that follows is a separate `CargarMensajes`).
     */
    method EnviarMensaje(insertOk: bool) returns (sent: Option<NuevoMensaje>)
      modifies this`nuevoMensaje
      ensures IsBlank(old(nuevoMensaje)) ==> sent.None? && nuevoMensaje == old(nuevoMensaje)
      ensures !IsBlank(old(nuevoMensaje)) ==>
        sent == Some(NuevoMensaje(chatId, usuarioId, Trim(old(nuevoMensaje)), true))
      ensures nuevoMensaje == if sent.Some? && insertOk then "" else old(nuevoMensaje)
    {
      if IsBlank(nuevoMensaje) {
        return None;
      }
      sent := Some(NuevoMensaje(chatId, usuarioId, Trim(nuevoMensaje), true));
      if insertOk {
        nuevoMensaje := "";
      }
    }

    /** Tapping star `i` of the rating row. */
    method SetEstrellas(i: int)
      modifies this`estrellas
      ensures estrellas == i
    {
      estrellas := i;
    }

    /** `renderEstrellas`: five icons keyed 1..5, icon `i` filled exactly when `i <= estrellas`. */
    method RenderEstrellas() returns (icons: seq<Star>)
      ensures |icons| == 5
      ensures forall i | 0 <= i < 5 :: icons[i] == Star(i + 1, i + 1 <= estrellas)
    {
      icons := [];
      var i := 1;
      while i <= 5
        invariant 1 <= i <= 6 && |icons| == i - 1
        invariant forall k | 0 <= k < i - 1 :: icons[k] == Star(k + 1, k + 1 <= estrellas)
      {
        icons := icons + [Star(i, i <= estrellas)];
        i := i + 1;
      }
    }
  }

  /** A sent message is never blank and carries no surrounding white space. */
  lemma SentContentIsTrimmed(text: string)
    requires !IsBlank(text)
    ensures Trim(text) != "" && Trim(Trim(text)) == Trim(text)
  {
    TrimIdempotent(text);
  }

  /** A message the user sent is never among those the user marks read. */
  lemma OwnMessagesNeverMarked(data: seq<Mensaje>, usuarioId: Option<string>)
    ensures forall m | m in Unread(data, usuarioId) :: !EsMio(m, usuarioId)
  {
    var r := Unread(data, usuarioId);
    forall m | m in r ensures !EsMio(m, usuarioId) {
      var i :| 0 <= i < |r| && r[i] == m;
    }
  }

  /** Filled stars form a prefix of the row: a filled star has only filled stars before it. */
  lemma FilledStarsArePrefix(icons: seq<Star>, estrellas: int)
    requires |icons| == 5 && forall i | 0 <= i < 5 :: icons[i] == Star(i + 1, i + 1 <= estrellas)
    ensures forall i, j | 0 <= i < j < 5 && icons[j].filled :: icons[i].filled
    ensures (forall i | 0 <= i < 5 :: icons[i].filled) <==> estrellas >= 5
    ensures (forall i | 0 <= i < 5 :: !icons[i].filled) <==> estrellas < 1
  {
    assert icons[4] == Star(5, 5 <= estrellas);
    assert icons[0] == Star(1, 1 <= estrellas);
  }
}
