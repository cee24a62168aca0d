/**
 * The report-a-service modal: the fixed list of reasons, the validation of a report,
 * the stored details, and the form fields that cancelling or a successful submit reset.
 */
module ReporteModal {
  import opened Wrappers
  import opened JsText

  datatype Reason = Reason(caption: string, value: string)

  const ReportReasons: seq<Reason> := [
    Reason("Selecciona una razón...", ""),
    Reason("Contenido Inapropiado", "inappropriate_content"),
    Reason("Información Falsa o Engañosa", "false_information"),
    Reason("Spam o Publicidad no Deseada", "spam"),
    Reason("Estafa Potencial o Fraude", "potential_scam"),
    Reason("Problemas de Seguridad", "security_issue"),
    Reason("Otro", "other")
  ]

  /** The picker's first entry is the empty placeholder, and every value is distinct. */
  lemma ReasonsWellFormed()
    ensures ReportReasons[0].value == ""
    ensures forall i, j | 0 <= i < j < |ReportReasons| :: ReportReasons[i].value != ReportReasons[j].value
  {
  }

  const NoReasonText := "Por favor, selecciona una razón para el reporte."
  const NoDetailsText := "Por favor, proporciona detalles para la razón \"Otro\"."
  const NoIdentityText := "No se pudo identificar el servicio o el usuario. Intenta de nuevo."
  const ThanksText := "Gracias, hemos recibido tu reporte y lo revisaremos pronto."
  const SendFailedText := "No se pudo enviar el reporte. Inténtalo de nuevo más tarde."

  /** The first form check that fails, as the toast it shows; `None` when the form is complete. */
  function FormError(reason: string, details: string): (toast: Option<string>)
    ensures toast.None? <==> reason != "" && (reason == "other" ==> !IsBlank(details))
    ensures reason == "" ==> toast == Some(NoReasonText)
    ensures toast.Some? && reason != "" ==> toast == Some(NoDetailsText)
  {
    if reason == "" then Some(NoReasonText)
    else if reason == "other" && IsBlank(details) then Some(NoDetailsText)
    else None
  }

  /** `details.trim() || null`. */
  function StoredDetails(details: string): (stored: Option<string>)
    ensures stored.None? <==> IsBlank(details)
    ensures stored.Some? ==> stored.value == Trim(details)
  {
    var t := Trim(details);
    if t == "" then None else Some(t)
  }

  /** What is stored is never blank and is already trimmed. */
  lemma StoredDetailsAreTrimmed(details: string)
    ensures StoredDetails(details).Some? ==> StoredDetails(StoredDetails(details).value) == StoredDetails(details)
  {
    TrimIdempotent(details);
  }

  /** A reason other than 'other' is accepted whatever the details say, blank included. */
  lemma DetailsOnlyForOther(reason: string, details: string)
    requires reason != "" && reason != "other"
    ensures FormError(reason, details).None?
  {
  }

  /** The row inserted into `reports`. */
  datatype Report = Report(serviceId: string, reporterUserId: string, reasonCategory: string, details: Option<string>)

  datatype SubmitOutcome = SubmitOutcome(toast: string, insert: Option<Report>, closed: bool)

  class ReportForm {
    var selectedReason: string
    var details: string
    var isLoading: bool

    constructor ()
      ensures selectedReason == "" && details == "" && !isLoading
    {
      selectedReason, details, isLoading := "", "", false;
    }

    method SetSelectedReason(value: string)
      modifies this`selectedReason
      ensures selectedReason == value
    {
      selectedReason := value;
    }

    method SetDetails(text: string)
      modifies this`details
      ensures details == text
    {
      details := text;
    }

    /** `resetFields`: no reason selected and no details. */
    method ResetFields()
      modifies this`selectedReason, this`details
      ensures selectedReason == "" && details == ""
    {
      selectedReason, details := "", "";
    }

    /** `handleCancelar`: closes the modal and resets the fields. */
    method HandleCancelar() returns (closed: bool)
      modifies this`selectedReason, this`details
      ensures closed && selectedReason == "" && details == ""
    {
      ResetFields();
      closed := true;
    }

    /**
     * `handleReportSubmit`: form errors, then a missing service or user, abort before
     * loading starts. Otherwise the report is inserted; on success the modal closes and
     * the fields reset, on failure they are kept. Loading is off at the end.
     */
    method HandleReportSubmit(serviceId: Option<string>, currentUserId: Option<string>, insertOk: bool)
      returns (r: SubmitOutcome)
      modifies this
      ensures !isLoading || isLoading == old(isLoading)
      ensures FormError(old(selectedReason), old(details)).Some? ==>
        r == SubmitOutcome(FormError(old(selectedReason), old(details)).value, None, false)
        && selectedReason == old(selectedReason) && details == old(details) && isLoading == old(isLoading)
      ensures FormError(old(selectedReason), old(details)).None? && !(Truthy(serviceId) && Truthy(currentUserId)) ==>
        r == SubmitOutcome(NoIdentityText, None, false)
        && selectedReason == old(selectedReason) && details == old(details) && isLoading == old(isLoading)
      ensures r.insert.Some? <==>
        FormError(old(selectedReason), old(details)).None? && Truthy(serviceId) && Truthy(currentUserId)
      ensures r.insert.Some? ==>
        r.insert.value == Report(serviceId.value, currentUserId.value, old(selectedReason), StoredDetails(old(details)))
        && !isLoading
        && (insertOk ==> r.toast == ThanksText && r.closed && selectedReason == "" && details == "")
        && (!insertOk ==> r.toast == SendFailedText && !r.closed
                          && selectedReason == old(selectedReason) && details == old(details))
    {
      var problem := FormError(selectedReason, details);
      if problem.Some? {
        return SubmitOutcome(problem.value, None, false);
      }
      if !Truthy(serviceId) || !Truthy(currentUserId) {
        return SubmitOutcome(NoIdentityText, None, false);
      }
      isLoading := true;
      var report := Report(serviceId.value, currentUserId.value, selectedReason, StoredDetails(details));
      if insertOk {
        ResetFields();
        r := SubmitOutcome(ThanksText, Some(report), true);
      } else {
        r := SubmitOutcome(SendFailedText, Some(report), false);
      }
      isLoading := false;
    }
  }
}
