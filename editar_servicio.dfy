/**
 * The edit-a-service form: it starts from the service's own fields, highlights the chosen
 * category, and sends the five fields back keyed by the service's id.
 */
module EditarServicio {
  import opened Wrappers
  import opened Seqs

  datatype Servicio = Servicio(id: string, titulo: string, descripcion: string, precio: string,
                               horario: string, categoria: string)

  /** The five editable fields. */
  datatype Form = Form(titulo: string, descripcion: string, precio: string, horario: string, categoria: string)

  /** The update sent to `servicios`: the five fields, for the row with `id`. */
  datatype ServiceUpdate = ServiceUpdate(id: string, titulo: string, descripcion: string, precio: string,
                                         horario: string, categoria: string)

  datatype Alert = Alert(title: string, message: string)

  datatype UpdateOutcome = UpdateOutcome(alert: Alert, update: Option<ServiceUpdate>, goBack: bool)

  /** The form as the screen opens: each field is the service's own. */
  function InitialForm(s: Servicio): (f: Form)
    ensures f.titulo == s.titulo && f.descripcion == s.descripcion && f.precio == s.precio
    ensures f.horario == s.horario && f.categoria == s.categoria
  {
    Form(s.titulo, s.descripcion, s.precio, s.horario, s.categoria)
  }

  predicate AllFilled(f: Form) {
    f.titulo != "" && f.descripcion != "" && f.precio != "" && f.horario != "" && f.categoria != ""
  }

  /** The update payload: the form's five fields under the unchanged service id. */
  function Payload(s: Servicio, f: Form): (u: ServiceUpdate)
    ensures u.id == s.id
    ensures Form(u.titulo, u.descripcion, u.precio, u.horario, u.categoria) == f
  {
    ServiceUpdate(s.id, f.titulo, f.descripcion, f.precio, f.horario, f.categoria)
  }

  /** Submitting the form untouched writes back exactly the service as it was. */
  lemma UntouchedFormRewritesService(s: Servicio)
    ensures var u := Payload(s, InitialForm(s));
      Servicio(u.id, u.titulo, u.descripcion, u.precio, u.horario, u.categoria) == s
  {
  }

  /**
   * `handleActualizar`: with any field empty nothing is sent; otherwise the update is sent
   * and its error (`Some(message)`) or success decides the alert and whether to go back.
   */
  function HandleActualizar(s: Servicio, f: Form, updateError: Option<string>): (r: UpdateOutcome)
    ensures r.update.Some? <==> AllFilled(f)
    ensures r.update.Some? ==> r.update.value == Payload(s, f)
    ensures !AllFilled(f) ==> r == UpdateOutcome(Alert("Error", "Todos los campos son obligatorios"), None, false)
    ensures r.goBack <==> AllFilled(f) && updateError.None?
    ensures AllFilled(f) && updateError.Some? ==> r.alert == Alert("Error al actualizar", updateError.value)
    ensures r.goBack ==> r.alert == Alert("Éxito", "Servicio actualizado")
  {
    if !AllFilled(f) then UpdateOutcome(Alert("Error", "Todos los campos son obligatorios"), None, false)
    else if updateError.Some? then UpdateOutcome(Alert("Error al actualizar", updateError.value), Some(Payload(s, f)), false)
    else UpdateOutcome(Alert("Éxito", "Servicio actualizado"), Some(Payload(s, f)), true)
  }

  /** Tapping a category chip makes it the form's category. */
  function SelectCategoria(f: Form, cat: string): (g: Form)
    ensures g.categoria == cat
    ensures g.(categoria := f.categoria) == f
  {
    f.(categoria := cat)
  }

  /** `categoria === cat`: whether a chip is drawn as selected. */
  predicate Highlighted(f: Form, cat: string) {
    f.categoria == cat
  }

  /** After a tap, the chips of a list without repeats show exactly the tapped one as selected. */
  lemma ExactlyOneHighlighted(f: Form, chips: seq<string>, k: int)
    requires NoDuplicates(chips) && 0 <= k < |chips|
    ensures forall i | 0 <= i < |chips| :: Highlighted(SelectCategoria(f, chips[k]), chips[i]) <==> i == k
  {
  }
}
