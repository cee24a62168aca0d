/**
 * The services of one category: which services open their detail modal, the modal and
 * report selection state, and what hiring a service sends (the hire record, the request
 * notification to the owner, and the push message when the owner has a device token).
 */
module ServiciosPorCategoria {
  import opened Wrappers
  import opened JsText
  import opened Seqs
  import Notificaciones

  datatype Servicio = Servicio(id: string, userId: string, titulo: string, categoria: Option<string>,
                               estado: Option<string>)

  function InCategory(categoria: string): Servicio -> bool {
    (s: Servicio) => s.categoria == Some(categoria)
  }

  /** `select('*').eq('categoria', categoria)` over the `servicios` table, in table order. */
  function CategoryQuery(table: seq<Servicio>, categoria: string): (r: seq<Servicio>)
    ensures IsSubsequence(r, table)
    ensures forall i | 0 <= i < |r| :: r[i].categoria == Some(categoria)
    ensures forall i | 0 <= i < |table| && table[i].categoria == Some(categoria) :: table[i] in r
  {
    FilterIsSubsequence(table, InCategory(categoria));
    Filter(table, InCategory(categoria))
  }

  /** The row inserted into `servicios_contratados`. */
  datatype Contratacion = Contratacion(servicioId: string, contratanteId: string, contratadoId: string)

  /** The row inserted into `notificaciones`. */
  datatype Solicitud = Solicitud(receptorId: string, emisorId: string, mensaje: string, createdAt: string)

  /** The push message posted for the owner's device. */
  datatype Push = Push(to: string, sound: string, title: string, body: string)

  datatype HireRequest = HireRequest(contratacion: Contratacion, solicitud: Solicitud, push: Option<Push>)

  const RequestPrefix := "Un usuario ha solicitado tu servicio: "

  /** `Un usuario ha solicitado tu servicio: ${titulo}`. */
  function RequestMessage(titulo: string): (m: string)
    ensures |m| == |RequestPrefix| + |titulo|
    ensures m[..|RequestPrefix|] == RequestPrefix && m[|RequestPrefix|..] == titulo
  {
    RequestPrefix + titulo
  }

  /**
   * What hiring `s` sends for `buyer`: the hire links the service, the buyer as the one
   * hiring and the owner as the one hired; the notification goes from buyer to owner;
   * the push goes to the owner's token only when there is one.
   */
  function Hire(s: Servicio, buyer: string, createdAt: string, expoToken: Option<string>): (h: HireRequest)
    ensures h.contratacion == Contratacion(s.id, buyer, s.userId)
    ensures h.solicitud == Solicitud(s.userId, buyer, RequestMessage(s.titulo), createdAt)
    ensures h.push.Some? <==> Truthy(expoToken)
    ensures h.push.Some? ==> h.push.value == Push(expoToken.value, "default", "¡Nueva solicitud!", h.solicitud.mensaje)
  {
    var mensaje := RequestMessage(s.titulo);
    HireRequest(
      Contratacion(s.id, buyer, s.userId),
      Solicitud(s.userId, buyer, mensaje, createdAt),
      if Truthy(expoToken) then Some(Push(expoToken.value, "default", "¡Nueva solicitud!", mensaje)) else None)
  }

  /**
   * When the owner accepts the request notification, the chat created names the same
   * parties in the same roles as the hire record.
   */
  lemma AcceptedChatMatchesHire(s: Servicio, buyer: string, createdAt: string, expoToken: Option<string>)
    ensures var h := Hire(s, buyer, createdAt, expoToken);
      var chat := Notificaciones.NewChat(h.solicitud.receptorId, h.solicitud.emisorId);
      chat.contratanteId == h.contratacion.contratanteId && chat.contratadoId == h.contratacion.contratadoId
  {
  }

  /** A paused service does not open its detail modal. */
  predicate Contratable(s: Servicio) {
    s.estado != Some("pausado")
  }

  class CategoryScreen {
    const categoria: string
    var servicios: seq<Servicio>
    var modalVisible: bool
    var servicioSeleccionado: Option<Servicio>
    var confirmacionVisible: bool
    var reportVisible: bool

    /** The detail modal is only ever shown with a service selected. */
    predicate Valid()
      reads this
    {
      modalVisible ==> servicioSeleccionado.Some?
    }

    constructor (categoria: string)
      ensures Valid() && this.categoria == categoria && servicios == []
      ensures !modalVisible && servicioSeleccionado == None && !confirmacionVisible && !reportVisible
    {
      this.categoria := categoria;
      servicios := [];
      modalVisible, servicioSeleccionado := false, None;
      confirmacionVisible, reportVisible := false, false;
    }

    /**
     * `fetchServicios`: the screen's category queried over the `servicios` table (`None`
     * when the query failed), or an alert and the old list on error.
     */
    method FetchServicios(table: Option<seq<Servicio>>) returns (alerted: bool)
      modifies this`servicios
      ensures alerted <==> table.None?
      ensures table.Some? ==> servicios == CategoryQuery(table.value, categoria)
      ensures table.Some? ==> forall s | s in servicios :: s.categoria == Some(categoria)
      ensures table.None? ==> servicios == old(servicios)
    {
      if table.Some? {
        servicios := CategoryQuery(table.value, categoria);
      }
      alerted := table.None?;
    }

    method AbrirModal(s: Servicio)
      modifies this`servicioSeleccionado, this`modalVisible
      ensures Valid() && servicioSeleccionado == Some(s) && modalVisible
    {
      servicioSeleccionado := Some(s);
      modalVisible := true;
    }

    method CerrarModal()
      modifies this`servicioSeleccionado, this`modalVisible
      ensures Valid() && servicioSeleccionado == None && !modalVisible
    {
      modalVisible := false;
      servicioSeleccionado := None;
    }

    /** Tapping a service card: a paused service only shows an alert; any other opens its detail. */
    method TocarServicio(s: Servicio) returns (alerted: bool)
      requires Valid()
      modifies this`servicioSeleccionado, this`modalVisible
      ensures Valid()
      ensures alerted <==> !Contratable(s)
      ensures Contratable(s) ==> servicioSeleccionado == Some(s) && modalVisible
      ensures !Contratable(s) ==>
        servicioSeleccionado == old(servicioSeleccionado) && modalVisible == old(modalVisible)
    {
      if s.estado != Some("pausado") {
        AbrirModal(s);
        alerted := false;
      } else {
        alerted := true;
      }
    }

    /** `handleReport`: the detail modal closes, the service stays selected and the report modal opens. */
    method HandleReport(s: Servicio)
      modifies this`servicioSeleccionado, this`modalVisible, this`reportVisible
      ensures Valid() && !modalVisible && servicioSeleccionado == Some(s) && reportVisible
    {
      CerrarModal();
      servicioSeleccionado := Some(s);
      reportVisible := true;
    }

    /**
     * `contratarServicio`: the detail modal closes and the confirmation shows before any
     * backend call. The requests use the service selected when the button was pressed
     * (the handler's captured value), and are sent only when a signed-in user is returned; without
     * a selection the handler fails and sends nothing.
     */
    method ContratarServicio(buyer: Option<string>, createdAt: string, expoToken: Option<string>)
      returns (sent: Option<HireRequest>)
      modifies this`servicioSeleccionado, this`modalVisible, this`confirmacionVisible
      ensures Valid() && !modalVisible && servicioSeleccionado == None && confirmacionVisible
      ensures sent.Some? <==> buyer.Some? && old(servicioSeleccionado).Some?
      ensures sent.Some? ==> sent.value == Hire(old(servicioSeleccionado).value, buyer.value, createdAt, expoToken)
    {
      var seleccionado := servicioSeleccionado;
      CerrarModal();
      confirmacionVisible := true;
      if buyer.None? || seleccionado.None? {
        return None;
      }
      sent := Some(Hire(seleccionado.value, buyer.value, createdAt, expoToken));
    }

    /** The confirmation's 'Volver' button: hides it and goes home. */
    method Volver() returns (home: bool)
      modifies this`confirmacionVisible
      ensures !confirmacionVisible && home
    {
      confirmacionVisible := false;
      home := true;
    }
  }
}
