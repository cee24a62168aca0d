/**
 * The publish-a-service form: five text fields, a description capped at 300 characters,
 * and the checks and record of the submit.
 */
module OfrecerServicio {
  import opened Wrappers
  import opened JsText

  const MaxDescripcion := 300

  /** The row inserted into `servicios`. */
  datatype ServicioNuevo = ServicioNuevo(userId: string, titulo: string, categoria: string,
                                         horario: string, precio: string, descripcion: string)

  datatype Alert = Alert(title: string, message: string)

  datatype SubmitOutcome = SubmitOutcome(alert: Alert, insert: Option<ServicioNuevo>, navigateHome: bool)

  const MissingFieldsAlert := Alert("Error", "Por favor completa todos los campos.")
  const NoUserAlert := Alert("Error", "No se pudo obtener el usuario. Asegúrate de estar logueado.")
  const CreatedAlert := Alert("Éxito", "Servicio creado correctamente.")

  const InsertFailedPrefix := "No se pudo crear el servicio: "
  const UnknownInsertError := "Error desconocido de Supabase"

  /** The alert of a failed insert: `error.message || 'Error desconocido de Supabase'`, prefixed. */
  function InsertFailedAlert(message: Option<string>): (a: Alert)
    ensures a.title == "Error"
    ensures Truthy(message) ==> a.message == InsertFailedPrefix + message.value
    ensures !Truthy(message) ==> a.message == InsertFailedPrefix + UnknownInsertError
  {
    var text := if Truthy(message) then message.value else UnknownInsertError;
    Alert("Error", InsertFailedPrefix + text)
  }

  /** What the insert returned: success, or an error with its message (possibly absent). */
  datatype InsertReply = Inserted | InsertError(message: Option<string>)

  class ServiceOfferForm {
    var titulo: string
    var categoria: string
    var horario: string
    var precio: string
    var descripcion: string
    var userId: Option<string>

    /** The description never exceeds the cap. */
    predicate Valid()
      reads this
    {
      |descripcion| <= MaxDescripcion
    }

    constructor ()
      ensures Valid()
      ensures titulo == "" && categoria == "" && horario == "" && precio == "" && descripcion == ""
      ensures userId == None
    {
      titulo, categoria, horario, precio, descripcion := "", "", "", "", "";
      userId := None;
    }

    /** The user lookup on mount: the id is stored, or an error alert is shown. */
    method CargarUsuario(user: Option<string>) returns (alert: Option<Alert>)
      modifies this`userId
      ensures user.Some? ==> userId == user && alert.None?
      ensures user.None? ==> userId == old(userId) && alert == Some(Alert("Error", "No se pudo obtener el usuario"))
    {
      if user.Some? {
        userId := user;
        alert := None;
      } else {
        alert := Some(Alert("Error", "No se pudo obtener el usuario"));
      }
    }

    method SetTitulo(text: string)
      modifies this`titulo
      ensures titulo == text
    {
      titulo := text;
    }

    method SetCategoria(value: string)
      modifies this`categoria
      ensures categoria == value
    {
      categoria := value;
    }

    method SetHorario(text: string)
      modifies this`horario
      ensures horario == text
    {
      horario := text;
    }

    method SetPrecio(text: string)
      modifies this`precio
      ensures precio == text
    {
      precio := text;
    }

    /** The description input accepts a new text only when it fits in 300 characters. */
    method SetDescripcion(text: string)
      requires Valid()
      modifies this`descripcion
      ensures Valid()
      ensures |text| <= MaxDescripcion ==> descripcion == text
      ensures |text| > MaxDescripcion ==> descripcion == old(descripcion)
    {
      if |text| <= MaxDescripcion {
        descripcion := text;
      }
    }

    predicate AllFilled()
      reads this
    {
      titulo != "" && categoria != "" && horario != "" && precio != "" && descripcion != ""
    }

    /**
     * `handleSubmit`: any empty field, then a missing user, abort with an alert; otherwise
     * the five fields are inserted verbatim under the user's id, and the outcome of the
     * insert decides between the success alert with navigation home and the error alert.
     */
    method HandleSubmit(reply: InsertReply) returns (r: SubmitOutcome)
      requires Valid()
      ensures !AllFilled() ==> r == SubmitOutcome(MissingFieldsAlert, None, false)
      ensures AllFilled() && !Truthy(userId) ==> r == SubmitOutcome(NoUserAlert, None, false)
      ensures r.insert.Some? <==> AllFilled() && Truthy(userId)
      ensures r.insert.Some? ==>
        r.insert.value == ServicioNuevo(userId.value, titulo, categoria, horario, precio, descripcion)
        && |r.insert.value.descripcion| <= MaxDescripcion
      ensures r.navigateHome <==> r.insert.Some? && reply.Inserted?
      ensures r.insert.Some? && reply.InsertError? ==> r.alert == InsertFailedAlert(reply.message)
      ensures r.navigateHome ==> r.alert == CreatedAlert
    {
      if titulo == "" || categoria == "" || horario == "" || precio == "" || descripcion == "" {
        return SubmitOutcome(MissingFieldsAlert, None, false);
      }
      if !Truthy(userId) {
        return SubmitOutcome(NoUserAlert, None, false);
      }
      var servicio := ServicioNuevo(userId.value, titulo, categoria, horario, precio, descripcion);
      match reply {
        case Inserted => r := SubmitOutcome(CreatedAlert, Some(servicio), true);
        case InsertError(message) => r := SubmitOutcome(InsertFailedAlert(message), Some(servicio), false);
      }
    }
  }
}
